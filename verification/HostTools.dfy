/** The proxy toward the host: the tools it lists, the plan for a call, and the audited handling of one. */
module HostTools {
  import opened Values
  import opened Coercions
  import opened ToolSemantics

  // ----- Listing

  function WithInputSchemaHash(c: Catalog, d: Descriptor): Descriptor {
    if d.snakeHash != "" || d.camelHash != "" || d.schema.None? || !Truthy(d.schema.value) then d
    else d.(snakeHash := c.schemaHash(d.schema.value))
  }

  /** The names shown to the host, in inventory order. */
  function HostExposed(c: Catalog, inventory: seq<Descriptor>, exposeAll: bool): seq<string> {
    if inventory == [] then []
    else
      var r := Resolve(c, WithInputSchemaHash(c, inventory[0]));
      (if r.Visible? && (exposeAll || r.semantics.defaultAllow) then [r.semantics.exposedName] else []) +
      HostExposed(c, inventory[1..], exposeAll)
  }

  // ----- Calling

  datatype Plan = Meta(toolName: string) | Block(toolName: string, code: string) | Forward(toolName: string, toolClass: string)

  function FindDescriptor(inventory: seq<Descriptor>, name: string): Option<Descriptor> {
    if inventory == [] then None
    else if inventory[0].name == name then Some(inventory[0])
    else FindDescriptor(inventory[1..], name)
  }

  function ResolveForCall(c: Catalog, name: string, d: Option<Descriptor>, connected: bool): Resolution {
    if d.Some? then Resolve(c, WithInputSchemaHash(c, d.value))
    else
      var r := Resolve(c, Named(name));
      if !connected && name in c.registry && r == Hidden("SCHEMA_DRIFT") then Visible(name, c.registry[name]) else r
  }

  predicate MetaTool(name: string) {
    name == "compass_status" || name == "compass_audit_events"
  }

  function PlanCall(c: Catalog, inventory: seq<Descriptor>, connected: bool, guarded: bool, name: string, validArgs: bool): Plan {
    if !validArgs then Block(name, "MISSING_REQUIRED_EVIDENCE")
    else if MetaTool(name) then Meta(name)
    else
      var r := ResolveForCall(c, name, FindDescriptor(inventory, name), connected);
      if r.Hidden? then Block(name, r.code)
      else if !guarded && !r.semantics.defaultAllow then Block(name, "POLICY_BLOCKED")
      else Forward(name, r.semantics.toolClass)
  }

  // ----- Listed exactly when callable

  predicate DistinctNames(inventory: seq<Descriptor>) {
    forall i, j | 0 <= i < j < |inventory| :: inventory[i].name != inventory[j].name
  }

  predicate NoMetaTools(c: Catalog) {
    forall n | n in c.registry :: !MetaTool(n)
  }

  predicate Shown(c: Catalog, d: Descriptor, exposeAll: bool) {
    var r := Resolve(c, WithInputSchemaHash(c, d));
    r.Visible? && (exposeAll || r.semantics.defaultAllow)
  }

  /** The schema hash a tool is known by: its own, under either name, or else that of its schema. */
  function PresentedHash(c: Catalog, d: Descriptor): string {
    if d.snakeHash != "" then d.snakeHash
    else if d.camelHash != "" then d.camelHash
    else if d.schema.Some? && Truthy(d.schema.value) then c.schemaHash(d.schema.value) else ""
  }

  /** A tool is shown exactly when its name is registered, neither unsupported nor private, it presents the registered
      schema hash, and the guarded pipeline is on or its default is to allow. */
  lemma ShownIff(c: Catalog, d: Descriptor, guarded: bool)
    ensures Shown(c, d, guarded) <==>
              d.name in c.registry && d.name !in c.unsupported && !c.classify(d.name, d.schema).Private? &&
              PresentedHash(c, d) != "" && PresentedHash(c, d) == c.registry[d.name].inputSchemaHash &&
              (guarded || c.registry[d.name].defaultAllow)
  {
    hide Truthy;
    VisibleIff(c, WithInputSchemaHash(c, d));
  }

  lemma {:induction false} ExposedIff(c: Catalog, inventory: seq<Descriptor>, exposeAll: bool, name: string)
    requires WellKeyed(c)
    ensures name in HostExposed(c, inventory, exposeAll) <==>
              exists i | 0 <= i < |inventory| :: inventory[i].name == name && Shown(c, inventory[i], exposeAll)
  {
    if inventory != [] {
      var (d, rest) := (inventory[0], inventory[1..]);
      ExposedIff(c, rest, exposeAll, name);
      VisibleIff(c, WithInputSchemaHash(c, d));
      if i :| 0 <= i < |rest| && rest[i].name == name && Shown(c, rest[i], exposeAll) {
        assert inventory[i + 1].name == name && Shown(c, inventory[i + 1], exposeAll);
      }
      if i :| 0 <= i < |inventory| && inventory[i].name == name && Shown(c, inventory[i], exposeAll) {
        assert i > 0 ==> rest[i - 1].name == name && Shown(c, rest[i - 1], exposeAll);
      }
    }
  }

  lemma {:induction false} FindIff(inventory: seq<Descriptor>, name: string)
    ensures FindDescriptor(inventory, name).None? <==> forall i | 0 <= i < |inventory| :: inventory[i].name != name
    ensures DistinctNames(inventory) ==>
              forall i | 0 <= i < |inventory| && inventory[i].name == name :: FindDescriptor(inventory, name) == Some(inventory[i])
  {
    if inventory != [] {
      FindIff(inventory[1..], name);
      assert forall i | 0 < i < |inventory| :: inventory[i] == inventory[1..][i - 1];
    }
  }

  lemma FoundInInventory(inventory: seq<Descriptor>, name: string)
    ensures FindDescriptor(inventory, name).Some? ==>
              exists i | 0 <= i < |inventory| :: inventory[i].name == name && FindDescriptor(inventory, name) == Some(inventory[i])
  {
    if inventory != [] && inventory[0].name != name {
      FoundInInventory(inventory[1..], name);
      assert forall i | 0 < i < |inventory| :: inventory[i] == inventory[1..][i - 1];
    }
  }

  /** Some tool of the name is shown. */
  predicate SomeShown(c: Catalog, inventory: seq<Descriptor>, guarded: bool, name: string) {
    exists i | 0 <= i < |inventory| :: inventory[i].name == name && Shown(c, inventory[i], guarded)
  }

  /** The first tool of the name is shown. */
  predicate FirstShown(c: Catalog, inventory: seq<Descriptor>, guarded: bool, name: string) {
    var found := FindDescriptor(inventory, name);
    found.Some? && Shown(c, found.value, guarded)
  }

  lemma ForwardedIffFirst(c: Catalog, inventory: seq<Descriptor>, guarded: bool, name: string)
    requires WellKeyed(c) && NoMetaTools(c)
    ensures PlanCall(c, inventory, true, guarded, name, true).Forward? <==> FirstShown(c, inventory, guarded, name)
  {
    hide Resolve, WithInputSchemaHash, FindDescriptor;
    FoundInInventory(inventory, name);
    var found := FindDescriptor(inventory, name);
    if found.None? {
      VisibleIff(c, Named(name));
    } else {
      HashedName(c, found.value);
      VisibleIff(c, WithInputSchemaHash(c, found.value));
    }
  }

  /** While the upstream is connected, list and call agree on a name exactly when the first tool of that name is
      shown whenever any tool of that name is, whatever the inventory, with and without the guarded pipeline. */
  lemma ListAndCallAgreeIff(c: Catalog, inventory: seq<Descriptor>, guarded: bool, name: string)
    requires WellKeyed(c) && NoMetaTools(c)
    ensures (name in HostExposed(c, inventory, guarded) <==> PlanCall(c, inventory, true, guarded, name, true).Forward?) <==>
            (SomeShown(c, inventory, guarded, name) ==> FirstShown(c, inventory, guarded, name))
  {
    hide Resolve, FindDescriptor, HostExposed, WithInputSchemaHash, Shown, PlanCall;
    ExposedIff(c, inventory, guarded, name);
    ForwardedIffFirst(c, inventory, guarded, name);
    FoundInInventory(inventory, name);
  }

  /** So with distinct names the host is shown a tool exactly when a call to it with valid arguments is
      forwarded, with and without the guarded pipeline. */
  lemma ListedIffForwarded(c: Catalog, inventory: seq<Descriptor>, guarded: bool, name: string)
    requires WellKeyed(c) && NoMetaTools(c) && DistinctNames(inventory)
    ensures name in HostExposed(c, inventory, guarded) <==> PlanCall(c, inventory, true, guarded, name, true).Forward?
  {
    hide FindDescriptor, HostExposed, Shown, PlanCall, DistinctNames;
    ListAndCallAgreeIff(c, inventory, guarded, name);
    FindIff(inventory, name);
  }

  /** How a call is planned that is not forwarded, in the order of the checks. */
  lemma PlannedAs(c: Catalog, inventory: seq<Descriptor>, connected: bool, guarded: bool, name: string, validArgs: bool)
    ensures var (plan, r) := (PlanCall(c, inventory, connected, guarded, name, validArgs),
                              ResolveForCall(c, name, FindDescriptor(inventory, name), connected));
            var meta := name in {"compass_status", "compass_audit_events"};
            && (!validArgs ==> plan == Block(name, "MISSING_REQUIRED_EVIDENCE"))
            && (plan.Meta? <==> validArgs && meta)
            && (validArgs && !meta && r.Hidden? ==> plan == Block(name, r.code))
            && (validArgs && !meta && r.Visible? && !guarded && !r.semantics.defaultAllow ==> plan == Block(name, "POLICY_BLOCKED"))
            && (plan.Forward? <==> validArgs && !meta && r.Visible? && (guarded || r.semantics.defaultAllow))
  {
    hide ResolveForCall, FindDescriptor;
  }

  /** While the upstream is away, a registered name that no listed tool has is only short of a schema hash, so the call
      is planned and fails for want of the upstream. */
  lemma PlannedWhileAway(c: Catalog, inventory: seq<Descriptor>, name: string)
    requires FindDescriptor(inventory, name).None?
    ensures ResolveForCall(c, name, None, false).Visible? <==>
              name in c.registry && name !in c.unsupported && !c.classify(name, None).Private?
  {
    HiddenAs(c, Named(name));
  }

  lemma HashedName(c: Catalog, d: Descriptor)
    ensures WithInputSchemaHash(c, d).name == d.name
  {
  }

  // ----- A repeated name on which list and call disagree

  const OPEN_SCHEMA := Obj([])
  const DRIFTED_SCHEMA := Obj([Field("extra", Null)])

  /** A registry with the single read-only tool `get_balance`. */
  function BalanceCatalog(): Catalog {
    Catalog(map["get_balance" := Semantics("get_balance", "get_balance", "registered", "read_only", true, false, [], [])], {},
            (name, schema) => Plain, (schema: Value) => if schema == OPEN_SCHEMA then "registered" else "drifted")
  }

  /** An upstream that lists the name twice, first with a drifted schema. */
  function TwiceListed(): seq<Descriptor> {
    [Descriptor("get_balance", Some(DRIFTED_SCHEMA), "", ""), Descriptor("get_balance", Some(OPEN_SCHEMA), "", "")]
  }

  lemma BalanceCatalogFits()
    ensures WellKeyed(BalanceCatalog()) && NoMetaTools(BalanceCatalog())
  {
    assert |"get_balance"| == 11 && |"compass_status"| == 14 && |"compass_audit_events"| == 20;
  }

  lemma OnlySecondShown(guarded: bool)
    ensures Shown(BalanceCatalog(), TwiceListed()[1], guarded) && !Shown(BalanceCatalog(), TwiceListed()[0], guarded)
  {
    assert "registered"[0] != "drifted"[0];
    assert |DRIFTED_SCHEMA.fields| == 1 && OPEN_SCHEMA.fields == [];
  }

  /** The host is shown the tool, and every call to it is blocked. */
  lemma RepeatedNameDisagrees(guarded: bool)
    ensures WellKeyed(BalanceCatalog()) && NoMetaTools(BalanceCatalog())
    ensures "get_balance" in HostExposed(BalanceCatalog(), TwiceListed(), guarded)
    ensures !PlanCall(BalanceCatalog(), TwiceListed(), true, guarded, "get_balance", true).Forward?
  {
    hide BalanceCatalog, WellKeyed, NoMetaTools, Shown, HostExposed, PlanCall;
    var (c, l, name) := (BalanceCatalog(), TwiceListed(), "get_balance");
    BalanceCatalogFits();
    OnlySecondShown(guarded);
    assert l[1].name == name && FindDescriptor(l, name) == Some(l[0]);
    ExposedIff(c, l, guarded, name);
    ListAndCallAgreeIff(c, l, guarded, name);
  }

  // ----- Handling a call

  /** What the guarded runner gives back, when it is configured. */
  datatype RunnerAnswer = Passed(value: Value) | Refused(code: string) | Skipped | RunnerThrew

  datatype Intercepted = Forwarded(value: Value) | Failed(code: string)

  datatype Event = Event(action: string, result: string, code: string)

  const RECEIVED := Event("tool_call_received", "pending", "")
  const FORWARDED := Event("tool_call_forwarded", "success", "")

  function BlockedEvent(code: string): Event {
    Event("tool_call_blocked", "blocked", code)
  }

  class CallInterceptor {
    const catalog: Catalog
    const guarded: bool
    var inventory: seq<Descriptor>
    var connected: bool
    var audit: seq<Event>
    /** The names handed to the guarded runner or to the upstream, in order. */
    var handed: seq<string>

    constructor (catalog: Catalog, guarded: bool, inventory: seq<Descriptor>, connected: bool)
      ensures this.catalog == catalog && this.guarded == guarded && this.inventory == inventory && this.connected == connected
      ensures audit == [] && handed == []
    {
      this.catalog, this.guarded, this.inventory, this.connected := catalog, guarded, inventory, connected;
      audit, handed := [], [];
    }

    function PlanOf(name: string, validArgs: bool): Plan
      reads this
    {
      PlanCall(catalog, inventory, connected, guarded, name, validArgs)
    }

    /** Every call leaves exactly two audit events, the second saying how it ended; the runner or the upstream
        is reached exactly when the plan is to forward and the upstream is connected, so only for a listed tool. */
    method HandleUpstreamCall(name: string, validArgs: bool, runner: RunnerAnswer, upstream: Option<Value>)
      returns (r: Intercepted)
      modifies this`audit, this`handed
      ensures handed == old(handed) + if PlanOf(name, validArgs).Forward? && connected then [name] else []
      ensures WellKeyed(catalog) && NoMetaTools(catalog) && DistinctNames(inventory) && |handed| > |old(handed)| ==>
                name in HostExposed(catalog, inventory, guarded)
      ensures |handed| > |old(handed)| ==> validArgs && name !in {"compass_status", "compass_audit_events"}
      ensures r.Forwarded? <==> |handed| > |old(handed)| && if guarded then runner.Passed? else upstream.Some?
      ensures r.Forwarded? ==> r.value == if guarded then runner.value else upstream.value
      ensures |audit| == |old(audit)| + 2 && audit[..|old(audit)|] == old(audit) && audit[|old(audit)|] == RECEIVED
      ensures var last := audit[|old(audit)| + 1];
              if r.Forwarded? then last == FORWARDED
              else if |handed| > |old(handed)| && (if guarded then runner.RunnerThrew? else true) then
                r.code == "UPSTREAM_ERROR" && last == Event("upstream_error", "failed", r.code)
              else if PlanOf(name, validArgs).Forward? && !connected then
                r.code == "UPSTREAM_UNAVAILABLE" && last == Event("upstream_unavailable", "failed", r.code)
              else last == BlockedEvent(r.code)
      ensures PlanOf(name, validArgs).Block? ==> r == Failed(PlanOf(name, validArgs).code)
      ensures PlanOf(name, validArgs).Meta? ==> r == Failed("INTERNAL_ERROR")
      ensures PlanOf(name, validArgs).Forward? && connected && guarded ==>
                r == match runner
                     case Passed(v) => Forwarded(v)
                     case Refused(code) => Failed(code)
                     case Skipped => Failed("MISSING_REQUIRED_EVIDENCE")
                     case RunnerThrew => Failed("UPSTREAM_ERROR")
    {
      hide PlanCall, HostExposed, WellKeyed, NoMetaTools, DistinctNames;
      var plan := PlanOf(name, validArgs);
      audit := audit + [RECEIVED];
      if plan.Meta? {
        audit := audit + [BlockedEvent("INTERNAL_ERROR")];
        return Failed("INTERNAL_ERROR");
      }
      if plan.Block? {
        audit := audit + [BlockedEvent(plan.code)];
        return Failed(plan.code);
      }
      if !connected {
        audit := audit + [Event("upstream_unavailable", "failed", "UPSTREAM_UNAVAILABLE")];
        return Failed("UPSTREAM_UNAVAILABLE");
      }
      ListedWhenForwarded(catalog, inventory, guarded, name, validArgs);
      handed := handed + [name];
      if guarded {
        if runner.RunnerThrew? {
          audit := audit + [Event("upstream_error", "failed", "UPSTREAM_ERROR")];
          return Failed("UPSTREAM_ERROR");
        }
        if runner.Skipped? {
          audit := audit + [BlockedEvent("MISSING_REQUIRED_EVIDENCE")];
          return Failed("MISSING_REQUIRED_EVIDENCE");
        }
        if runner.Refused? {
          audit := audit + [BlockedEvent(runner.code)];
          return Failed(runner.code);
        }
        audit := audit + [FORWARDED];
        return Forwarded(runner.value);
      }
      if upstream.None? {
        audit := audit + [Event("upstream_error", "failed", "UPSTREAM_ERROR")];
        return Failed("UPSTREAM_ERROR");
      }
      audit := audit + [FORWARDED];
      r := Forwarded(upstream.value);
    }
  }

  lemma ListedWhenForwarded(c: Catalog, inventory: seq<Descriptor>, guarded: bool, name: string, validArgs: bool)
    requires PlanCall(c, inventory, true, guarded, name, validArgs).Forward?
    ensures WellKeyed(c) && NoMetaTools(c) && DistinctNames(inventory) ==> name in HostExposed(c, inventory, guarded)
    ensures validArgs && name !in {"compass_status", "compass_audit_events"}
  {
    hide HostExposed, WellKeyed, NoMetaTools, DistinctNames;
    if WellKeyed(c) && NoMetaTools(c) && DistinctNames(inventory) {
      assert PlanCall(c, inventory, true, guarded, name, true).Forward?;
      ListedIffForwarded(c, inventory, guarded, name);
    }
  }
}
