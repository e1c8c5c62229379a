/** How the decision depends on the snapshot: looser policies allow more, and the order of the lists does not
    matter.  Both rest on what validation enforces, that no two spender entries share token and spender. */
module PolicyOrder {
  import opened Values
  import opened Text
  import opened Coercions
  import opened ToolSemantics
  import opened Risk
  import opened PolicyDecision
  import opened PolicySnapshot

  predicate Matches(x: SpenderLimit, token: Option<Value>, spender: Option<Value>) {
    x.enabled && token == Some(Str(x.token)) && spender == Some(Str(x.spender))
  }

  /** Enabled entries for one pair are equal. */
  predicate EnabledAgree(l: seq<SpenderLimit>) {
    forall i, j | 0 <= i < |l| && 0 <= j < |l| :: l[i].enabled && l[j].enabled && SamePair(l[i], l[j]) ==> l[i] == l[j]
  }

  lemma OneEachAgree(l: seq<SpenderLimit>)
    requires OneLimitEach(l)
    ensures EnabledAgree(l)
  {
    assert forall x, y :: SamePair(x, y) <==> SamePair(y, x);
  }

  /** Where enabled entries agree, the search finds an enabled entry for the pair wherever it stands. */
  lemma {:induction false} FindLimitAgree(l: seq<SpenderLimit>, token: Option<Value>, spender: Option<Value>, x: SpenderLimit)
    requires EnabledAgree(l)
    ensures FindLimit(l, token, spender) == Some(x) <==> x in l && Matches(x, token, spender)
  {
    if l != [] {
      assert EnabledAgree(l[1..]) by {
        forall i, j | 0 <= i < |l[1..]| && 0 <= j < |l[1..]| && l[1..][i].enabled && l[1..][j].enabled && SamePair(l[1..][i], l[1..][j])
          ensures l[1..][i] == l[1..][j]
        {
          assert SamePair(l[i + 1], l[j + 1]);
        }
      }
      FindLimitAgree(l[1..], token, spender, x);
      assert forall y :: y in l <==> y == l[0] || y in l[1..];
      if Matches(l[0], token, spender) && x in l && Matches(x, token, spender) {
        var k :| 0 <= k < |l| && l[k] == x;
        assert SamePair(l[0], l[k]);
      }
    }
  }

  /** On a validated list the search finds the enabled entry for the pair, wherever it stands. */
  lemma FindLimitIff(l: seq<SpenderLimit>, token: Option<Value>, spender: Option<Value>, x: SpenderLimit)
    requires OneLimitEach(l)
    ensures FindLimit(l, token, spender) == Some(x) <==> x in l && Matches(x, token, spender)
  {
    hide FindLimit, Matches, OneLimitEach, EnabledAgree;
    OneEachAgree(l);
    FindLimitAgree(l, token, spender, x);
  }

  lemma {:induction false} FindLimitNone(l: seq<SpenderLimit>, token: Option<Value>, spender: Option<Value>)
    ensures FindLimit(l, token, spender).None? <==> forall x | x in l :: !Matches(x, token, spender)
  {
    if l != [] {
      FindLimitNone(l[1..], token, spender);
      assert forall x :: x in l <==> x == l[0] || x in l[1..];
      assert Matches(l[0], token, spender) <==> FindLimit(l, token, spender) == Some(l[0]) && Matches(l[0], token, spender);
    }
  }

  // ----- Monotonicity

  predicate Within(a: seq<string>, b: seq<string>) {
    forall x | x in a :: x in b
  }

  /** `t` has at least the entries of `s`, and caps and spender limits at least as large. */
  predicate Looser(s: Snapshot, t: Snapshot) {
    && Within(s.tools, t.tools) && Within(s.recipients, t.recipients) && Within(s.tokens, t.tokens)
    && CapOf(s.caps.native) <= CapOf(t.caps.native) && CapOf(s.caps.erc20) <= CapOf(t.caps.erc20)
    && CapOf(s.caps.gas) <= CapOf(t.caps.gas)
    && forall x | x in s.spenders && x.enabled :: HasAtLeast(t.spenders, x)
  }

  predicate HasAtLeast(l: seq<SpenderLimit>, x: SpenderLimit) {
    exists y | y in l :: y.enabled && SamePair(y, x) && CapOf(x.max) <= CapOf(y.max)
  }

  lemma ChecksEmptyIff(m: Semantics, s: Snapshot, e: Record)
    ensures Checks(m, s, e) == [] <==>
              && ContextChecks(m, s, e) == [] && ListedIn(e, "recipient", s.recipients) && ListedIn(e, "token", s.tokens)
              && AmountFinding(m, s, e) == [] && GasFinding(s, e) == [] && ApprovalFindings(m, s, e) == []
              && !(m.toolClass == "signature" && !TruthyAt(e, "typed_data_rule_key"))
  {
    hide ContextChecks, ListedIn, AmountFinding, GasFinding, ApprovalFindings, TruthyAt;
  }

  lemma ContextMonotone(m: Semantics, s: Snapshot, t: Snapshot, e: Record)
    requires Within(s.tools, t.tools) && ContextChecks(m, s, e) == []
    ensures ContextChecks(m, t, e) == []
  {
    hide Missing, SimulationFinding, NumberIs, Hash;
  }

  lemma ApprovalMonotone(m: Semantics, s: Snapshot, t: Snapshot, e: Record)
    requires Valid(s) && Valid(t) && Looser(s, t) && ApprovalFindings(m, s, e) == []
    ensures ApprovalFindings(m, t, e) == []
  {
    hide AmountOf, AmountEvidence, CapOf, FindLimit, ApprovalText, Lower, CanonicalDecimal, Distinct, OneLimitEach, LowerField;
    if m.toolClass == "token_approval" {
      var (token, spender) := (LowerField(e, "token"), LowerField(e, "spender"));
      var x := FindLimit(s.spenders, token, spender).value;
      FindLimitIff(s.spenders, token, spender, x);
      assert HasAtLeast(t.spenders, x);
      var y :| y in t.spenders && y.enabled && SamePair(y, x) && CapOf(x.max) <= CapOf(y.max);
      FindLimitIff(t.spenders, token, spender, y);
    }
  }

  lemma AmountsMonotone(m: Semantics, s: Snapshot, t: Snapshot, e: Record)
    requires Looser(s, t) && AmountFinding(m, s, e) == [] && GasFinding(s, e) == []
    ensures AmountFinding(m, t, e) == [] && GasFinding(t, e) == []
  {
    hide AmountOf, AmountEvidence, Digits, TruthyAt, HasAtLeast, CapOf;
  }

  /** A call allowed under a validated policy is allowed under every looser validated one. */
  lemma PolicyMonotone(m: Semantics, name: string, s: Snapshot, t: Snapshot, e: Record, audited: bool)
    requires Valid(s) && Valid(t) && Looser(s, t)
    requires Evaluate(Visible(name, m), Some(s), None, e, audited) == Allow
    ensures Evaluate(Visible(name, m), Some(t), None, e, audited) == Allow
  {
    hide Checks, Evaluate, ContextChecks, AmountFinding, GasFinding, ApprovalFindings, Lower, CapOf, HasAtLeast, FirstAt, Valid;
    ReportedCode(m, name, s, e, audited);
    ReportedCode(m, name, t, e, audited);
    ChecksEmptyIff(m, s, e);
    ChecksEmptyIff(m, t, e);
    ContextMonotone(m, s, t, e);
    AmountsMonotone(m, s, t, e);
    ApprovalMonotone(m, s, t, e);
  }

  // ----- Order

  predicate Reordered(s: Snapshot, t: Snapshot) {
    && multiset(s.tools) == multiset(t.tools) && multiset(s.recipients) == multiset(t.recipients)
    && multiset(s.tokens) == multiset(t.tokens) && multiset(s.spenders) == multiset(t.spenders)
    && s.caps == t.caps
  }

  lemma SameMembers<T>(a: seq<T>, b: seq<T>)
    requires multiset(a) == multiset(b)
    ensures forall x :: x in a <==> x in b
  {
    assert forall x :: x in a <==> x in multiset(a);
  }

  lemma ContextReordered(m: Semantics, s: Snapshot, t: Snapshot, e: Record)
    requires Reordered(s, t)
    ensures ContextChecks(m, s, e) == ContextChecks(m, t, e)
  {
    hide Missing, SimulationFinding, NumberIs, Hash, When;
    SameMembers(s.tools, t.tools);
  }

  lemma ApprovalReordered(m: Semantics, s: Snapshot, t: Snapshot, e: Record)
    requires OneLimitEach(s.spenders) && OneLimitEach(t.spenders) && Reordered(s, t)
    ensures ApprovalFindings(m, s, e) == ApprovalFindings(m, t, e)
  {
    hide AmountOf, AmountEvidence, CapOf, FindLimit, ApprovalText, Lower, OneLimitEach, LowerField, Matches;
    var (token, spender) := (LowerField(e, "token"), LowerField(e, "spender"));
    SameMembers(s.spenders, t.spenders);
    FindLimitNone(s.spenders, token, spender);
    FindLimitNone(t.spenders, token, spender);
    var (x, y) := (FindLimit(s.spenders, token, spender), FindLimit(t.spenders, token, spender));
    if x.Some? {
      FindLimitIff(s.spenders, token, spender, x.value);
      FindLimitIff(t.spenders, token, spender, x.value);
    }
  }

  /** Reordering every list of a validated policy changes no finding, so neither the decision nor its reason. */
  lemma OrderIrrelevant(m: Semantics, s: Snapshot, t: Snapshot, e: Record)
    requires Valid(s) && Valid(t) && Reordered(s, t)
    ensures Checks(m, s, e) == Checks(m, t, e)
  {
    hide ContextChecks, ApprovalFindings, AmountOf, AmountEvidence, CapOf, When, TruthyAt;
    SameMembers(s.recipients, t.recipients);
    SameMembers(s.tokens, t.tokens);
    ContextReordered(m, s, t, e);
    ApprovalReordered(m, s, t, e);
  }

  // ----- When the order matters

  lemma FindLimitReordered(l: seq<SpenderLimit>, r: seq<SpenderLimit>, token: Option<Value>, spender: Option<Value>)
    requires EnabledAgree(l) && multiset(l) == multiset(r)
    ensures FindLimit(l, token, spender) == FindLimit(r, token, spender)
  {
    hide FindLimit, Matches;
    SameMembers(l, r);
    assert EnabledAgree(r) by {
      forall i, j | 0 <= i < |r| && 0 <= j < |r| && r[i].enabled && r[j].enabled && SamePair(r[i], r[j]) ensures r[i] == r[j] {
        assert r[i] in l && r[j] in l;
      }
    }
    FindLimitNone(l, token, spender);
    FindLimitNone(r, token, spender);
    if FindLimit(l, token, spender).Some? {
      FindLimitAgree(l, token, spender, FindLimit(l, token, spender).value);
      FindLimitAgree(r, token, spender, FindLimit(l, token, spender).value);
    }
  }

  /** The entry moved to the front. */
  function Fronted(l: seq<SpenderLimit>, i: nat): (r: seq<SpenderLimit>)
    requires i < |l|
  {
    [l[i]] + l[..i] + l[i + 1..]
  }

  lemma FrontedFinds(l: seq<SpenderLimit>, i: nat)
    requires i < |l| && l[i].enabled
    ensures multiset(Fronted(l, i)) == multiset(l)
    ensures FindLimit(Fronted(l, i), Some(Str(l[i].token)), Some(Str(l[i].spender))) == Some(l[i])
  {
    assert l == l[..i] + [l[i]] + l[i + 1..];
    assert Fronted(l, i)[0] == l[i];
  }

  /** The search does not depend on the order of the list exactly when enabled entries for one pair are equal. */
  lemma FindLimitOrderIff(l: seq<SpenderLimit>)
    ensures (forall r, token, spender | multiset(r) == multiset(l) :: FindLimit(l, token, spender) == FindLimit(r, token, spender)) <==>
            EnabledAgree(l)
  {
    if EnabledAgree(l) {
      forall r, token, spender | multiset(r) == multiset(l) ensures FindLimit(l, token, spender) == FindLimit(r, token, spender) {
        FindLimitReordered(l, r, token, spender);
      }
    } else {
      var i, j :| 0 <= i < |l| && 0 <= j < |l| && l[i].enabled && l[j].enabled && SamePair(l[i], l[j]) && l[i] != l[j];
      FrontedFinds(l, i);
      FrontedFinds(l, j);
    }
  }

  /** An enabled entry that some call's token and spender, which the checks put in lower case, can meet. */
  predicate Met(x: SpenderLimit) {
    x.enabled && Lower(x.token) == x.token && Lower(x.spender) == x.spender
  }

  /** Entries for one pair that a call can meet set the same limit. */
  predicate LimitsAgree(l: seq<SpenderLimit>) {
    forall i, j | 0 <= i < |l| && 0 <= j < |l| :: Met(l[i]) && Met(l[j]) && SamePair(l[i], l[j]) ==> CapOf(l[i].max) == CapOf(l[j].max)
  }

  function WithLimits(s: Snapshot, r: seq<SpenderLimit>): Snapshot {
    s.(spenders := r)
  }

  predicate SameFindings(m: Semantics, s: Snapshot, r: seq<SpenderLimit>, e: Record) {
    hide Checks;
    Checks(m, WithLimits(s, r), e) == Checks(m, s, e)
  }

  lemma FindLimitMember(l: seq<SpenderLimit>, token: Option<Value>, spender: Option<Value>)
    ensures var x := FindLimit(l, token, spender); x.Some? ==> x.value in l && Matches(x.value, token, spender)
  {
    if l != [] && !Matches(l[0], token, spender) { FindLimitMember(l[1..], token, spender); }
  }

  lemma AgreeingFindings(m: Semantics, s: Snapshot, r: seq<SpenderLimit>, e: Record)
    requires LimitsAgree(s.spenders) && multiset(r) == multiset(s.spenders)
    ensures SameFindings(m, s, r, e)
  {
    hide ContextChecks, AmountOf, AmountEvidence, CapOf, FindLimit, ApprovalText, Lower, When, ListedIn, AmountFinding, GasFinding, TruthyAt,
      LimitsAgree;
    var (token, spender) := (LowerField(e, "token"), LowerField(e, "spender"));
    SameMembers(r, s.spenders);
    FindLimitNone(s.spenders, token, spender);
    FindLimitNone(r, token, spender);
    FindLimitMember(s.spenders, token, spender);
    FindLimitMember(r, token, spender);
    var (x, y) := (FindLimit(s.spenders, token, spender), FindLimit(r, token, spender));
    if x.Some? && y.Some? { MetAgree(s.spenders, x.value, y.value, e); }
    SameOtherChecks(m, s, r, e);
  }

  lemma MetAgree(l: seq<SpenderLimit>, x: SpenderLimit, y: SpenderLimit, e: Record)
    requires LimitsAgree(l) && x in l && y in l
    requires Matches(x, LowerField(e, "token"), LowerField(e, "spender")) && Matches(y, LowerField(e, "token"), LowerField(e, "spender"))
    ensures CapOf(x.max) == CapOf(y.max)
  {
    hide CapOf;
    LowerIdempotent(e["token"].s);
    LowerIdempotent(e["spender"].s);
    assert Met(x) && Met(y) && SamePair(x, y);
  }

  /** Findings differ in nothing but those of the approval. */
  lemma SameOtherChecks(m: Semantics, s: Snapshot, r: seq<SpenderLimit>, e: Record)
    ensures SameFindings(m, s, r, e) <==> ApprovalFindings(m, WithLimits(s, r), e) == ApprovalFindings(m, s, e)
  {
    hide ApprovalFindings, AmountOf, AmountEvidence, CapOf, When, TruthyAt, ListedIn, ContextChecks;
    assert ContextChecks(m, WithLimits(s, r), e) == ContextChecks(m, s, e) by { SameContext(m, s, r, e); }
    var before := ContextChecks(m, s, e) + When(!ListedIn(e, "recipient", s.recipients), "POLICY_RECIPIENT_NOT_ALLOWED", High) +
                  When(!ListedIn(e, "token", s.tokens), "POLICY_TOKEN_NOT_ALLOWED", High) + AmountFinding(m, s, e) + GasFinding(s, e);
    var after := When(m.toolClass == "signature" && !TruthyAt(e, "typed_data_rule_key"), "POLICY_TYPED_DATA_NOT_ALLOWED", High);
    Framed(before, ApprovalFindings(m, WithLimits(s, r), e), ApprovalFindings(m, s, e), after);
  }

  lemma SameContext(m: Semantics, s: Snapshot, r: seq<SpenderLimit>, e: Record)
    ensures ContextChecks(m, WithLimits(s, r), e) == ContextChecks(m, s, e)
  {
    hide Missing, SimulationFinding, NumberIs, Hash, When;
  }

  lemma Framed(a: seq<Finding>, x: seq<Finding>, y: seq<Finding>, b: seq<Finding>)
    ensures a + x + b == a + y + b <==> x == y
  {
    if a + x + b == a + y + b {
      assert |x| == |y|;
      assert x == (a + x + b)[|a|..|a| + |x|] && y == (a + y + b)[|a|..|a| + |y|];
    }
  }

  /** A call for the entry's pair with the given amount. */
  function CallFor(x: SpenderLimit, n: nat): Record {
    map["token" := Str(x.token), "spender" := Str(x.spender), "amount_atomic" := Str(Decimal(n))]
  }

  lemma CallAgainst(m: Semantics, s: Snapshot, x: SpenderLimit, y: SpenderLimit, n: nat)
    requires m.toolClass == "token_approval" && Met(y) && SamePair(x, y)
    requires FindLimit(s.spenders, Some(Str(y.token)), Some(Str(y.spender))) == Some(x)
    ensures |ApprovalFindings(m, s, CallFor(y, n))| ==
            |When(Lower(Decimal(n)) == "uint256.max" || Decimal(n) == UINT256_MAX, "POLICY_UNLIMITED_APPROVAL_BLOCKED", Critical)| +
            if n > CapOf(x.max) then 1 else 0
  {
    hide CapOf, FindLimit, Lower, AmountOf;
    assert |"token"| == 5 && |"spender"| == 7 && |"amount_atomic"| == 13;
    DecimalAmount(n);
  }

  lemma DecimalAmount(n: nat)
    ensures AmountOf(Some(Str(Decimal(n)))) == Some(n) && Decimal(n) != ""
  {
    DecimalRoundTrip(n);
    assert Digit(Decimal(n)[0]);
    assert "uint256.max"[0] == 'u';
  }

  lemma DisagreeingCall(m: Semantics, s: Snapshot, i: nat, j: nat)
    requires m.toolClass == "token_approval" && i < |s.spenders| && j < |s.spenders|
    requires Met(s.spenders[i]) && Met(s.spenders[j]) && SamePair(s.spenders[i], s.spenders[j])
    requires CapOf(s.spenders[i].max) < CapOf(s.spenders[j].max)
    ensures var e := CallFor(s.spenders[j], CapOf(s.spenders[j].max));
            !SameFindings(m, s, Fronted(s.spenders, i), e) || !SameFindings(m, s, Fronted(s.spenders, j), e)
  {
    hide CapOf, FindLimit, Lower, ApprovalFindings, SameFindings, Fronted;
    var l := s.spenders;
    var (n, e) := (CapOf(l[j].max), CallFor(l[j], CapOf(l[j].max)));
    FrontedFinds(l, i);
    FrontedFinds(l, j);
    CallAgainst(m, WithLimits(s, Fronted(l, i)), l[i], l[j], n);
    CallAgainst(m, WithLimits(s, Fronted(l, j)), l[j], l[j], n);
    SameOtherChecks(m, s, Fronted(l, i), e);
    SameOtherChecks(m, s, Fronted(l, j), e);
  }

  /** On any snapshot, validated or not, the findings of every approval are the same in every order of the spender
      entries if and only if entries for one pair that a call can meet set the same limit. */
  lemma OrderIrrelevantIff(m: Semantics, s: Snapshot)
    requires m.toolClass == "token_approval"
    ensures (forall r, e | multiset(r) == multiset(s.spenders) :: SameFindings(m, s, r, e)) <==> LimitsAgree(s.spenders)
  {
    hide SameFindings, CapOf, Met, Lower;
    if LimitsAgree(s.spenders) {
      forall r, e | multiset(r) == multiset(s.spenders) ensures SameFindings(m, s, r, e) { AgreeingFindings(m, s, r, e); }
    } else {
      var l := s.spenders;
      var i, j :| 0 <= i < |l| && 0 <= j < |l| && Met(l[i]) && Met(l[j]) && SamePair(l[i], l[j]) && CapOf(l[i].max) != CapOf(l[j].max);
      MetEnabled(l[i]);
      MetEnabled(l[j]);
      FrontedFinds(l, i);
      FrontedFinds(l, j);
      if CapOf(l[i].max) < CapOf(l[j].max) { DisagreeingCall(m, s, i, j); } else { DisagreeingCall(m, s, j, i); }
    }
  }

  lemma MetEnabled(x: SpenderLimit)
    requires Met(x)
    ensures x.enabled
  {
  }

  // ----- What an empty list of findings says

  predicate AllGiven(e: Record, names: seq<string>) {
    forall n | n in names :: Risk.HasEvidence(e, n)
  }

  lemma {:induction false} MissingEmptyIff(e: Record, names: seq<string>)
    ensures Missing(e, names) == [] <==> AllGiven(e, names)
  {
    hide Risk.HasEvidence;
    if names != [] {
      MissingEmptyIff(e, names[1..]);
      assert forall n :: n in names <==> n == names[0] || n in names[1..];
    }
  }

  /** Simulation evidence is present and reports neither a failure nor unavailability, where the class needs it. */
  predicate SimulationFine(m: Semantics, e: Record) {
    Simulated(m.toolClass) || m.requiresSimulation ==>
      TruthyAt(e, "simulation") && StatusOf(e["simulation"]) != Some(Str("failed")) && StatusOf(e["simulation"]) != Some(Str("unavailable"))
  }

  lemma ContextEmptyIff(m: Semantics, s: Snapshot, e: Record)
    ensures ContextChecks(m, s, e) == [] <==>
              && (Given(e, "chain_id") ==> NumberIs(e["chain_id"], 10143)) && KeyOf(m.toolName) in s.tools
              && AllGiven(e, m.requiredFields) && AllGiven(e, m.requiredEvidence) && SimulationFine(m, e)
  {
    hide Missing, NumberIs, Hash, StatusOf, AllGiven;
    MissingEmptyIff(e, m.requiredFields);
    MissingEmptyIff(e, m.requiredEvidence);
  }
}
