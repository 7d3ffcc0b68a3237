/**
 * The escalation scheduler (extensions/attention_alert/alert_router.py): immediate
 * dispatch to backends, delayed escalation timers and their cancellation.
 *
 * A backend is an object identified by its class name; what its `dispatch` does is an
 * input (`respond`), one answer per backend for a whole dispatch. The calls the router
 * makes to backends and to the history sink are kept in the ghost log `effects`. A
 * `threading.Timer` is a token in `pending`; a timer fires only through `Fire`, and
 * cancelling one removes its token.
 */
module AlertRouter {
  import opened Wrappers
  import opened Models
  import Config

  // ------------------------------------------------------------------
  // Escalation rules
  // ------------------------------------------------------------------

  /** One escalation rule `{"delay_seconds": .., "backend": ..}` or `{.., "action": ..}`;
      each key may be absent. */
  datatype Rule = Rule(delaySeconds: Option<int>, backend: Option<string>, action: Option<Config.Value>)

  /** `rule.get("delay_seconds", 0)`. */
  function Delay(r: Rule): int {
    r.delaySeconds.GetOr(0)
  }

  /** Selected by the immediate comprehension: zero delay and a `backend` key. */
  predicate IsImmediate(r: Rule) {
    Delay(r) == 0 && r.backend.Some?
  }

  /** Selected by the delayed comprehension: a positive delay. */
  predicate IsDelayed(r: Rule) {
    Delay(r) > 0
  }

  /** `rule.get("action") == "auto_pause"`: the one action the scheduler knows. */
  predicate IsAutoPause(r: Rule) {
    r.action == Some(Config.Str("auto_pause"))
  }

  /** `immediate_backends`: the backend names of the immediate rules, in rule order. A
      name is listed exactly when an immediate rule carries it, and the list is empty
      exactly when no rule is immediate. */
  function ImmediateNames(rules: seq<Rule>): (names: seq<string>)
    ensures |names| <= |rules|
    ensures names == [] <==> forall r :: r in rules ==> !IsImmediate(r)
    ensures forall n :: n in names <==> exists r :: r in rules && IsImmediate(r) && r.backend.value == n
    decreases |rules|
  {
    if rules == [] then []
    else
      assert forall r :: r in rules <==> r == rules[0] || r in rules[1..];
      (if IsImmediate(rules[0]) then [rules[0].backend.value] else []) + ImmediateNames(rules[1..])
  }

  /** `delayed_rules`: the rules with a positive delay, in rule order. A rule is listed
      exactly when it is one of the rules and its delay is positive. */
  function DelayedRules(rules: seq<Rule>): (delayed: seq<Rule>)
    ensures |delayed| <= |rules|
    ensures forall r :: r in delayed <==> r in rules && IsDelayed(r)
    decreases |rules|
  {
    if rules == [] then []
    else
      assert forall r :: r in rules <==> r == rules[0] || r in rules[1..];
      (if IsDelayed(rules[0]) then [rules[0]] else []) + DelayedRules(rules[1..])
  }

  /** Both comprehensions work rule by rule: on a concatenation they concatenate, so the
      original order is kept within each subset. */
  lemma {:induction false} ImmediateNamesDistribute(a: seq<Rule>, b: seq<Rule>)
    ensures ImmediateNames(a + b) == ImmediateNames(a) + ImmediateNames(b)
    decreases |a|
  {
    if a == [] {
      assert a + b == b;
    } else {
      var ab := a + b;
      assert ab[0] == a[0] && ab[1..] == a[1..] + b;
      ImmediateNamesDistribute(a[1..], b);
      var h: seq<string> := if IsImmediate(a[0]) then [a[0].backend.value] else [];
      assert ImmediateNames(ab) == h + ImmediateNames(ab[1..]);
      assert ImmediateNames(a) == h + ImmediateNames(a[1..]);
      assert (h + ImmediateNames(a[1..])) + ImmediateNames(b) == h + (ImmediateNames(a[1..]) + ImmediateNames(b));
    }
  }

  lemma {:induction false} DelayedRulesDistribute(a: seq<Rule>, b: seq<Rule>)
    ensures DelayedRules(a + b) == DelayedRules(a) + DelayedRules(b)
    decreases |a|
  {
    if a == [] {
      assert a + b == b;
    } else {
      var ab := a + b;
      assert ab[0] == a[0] && ab[1..] == a[1..] + b;
      DelayedRulesDistribute(a[1..], b);
      var h: seq<Rule> := if IsDelayed(a[0]) then [a[0]] else [];
      assert DelayedRules(ab) == h + DelayedRules(ab[1..]);
      assert DelayedRules(a) == h + DelayedRules(a[1..]);
    }
  }

  /** A `delay_seconds` value as the comparisons `== 0` and `> 0` read it: an integer,
      or a boolean, which Python compares as 0 or 1. Any other value is not modelled. */
  function DelayOf(v: Config.Value): Option<int> {
    match v
    case Int(i) => Some(i)
    case Bool(b) => Some(if b then 1 else 0)
    case _ => None
  }

  /** One entry of the configured `escalation` list; `None` where the model does not go
      (an entry that is not a mapping, a delay that is neither an integer nor a boolean,
      a backend that is not a string). Otherwise the rule holds the entry's delay
      (0 when absent), its backend name and its action, exactly as the entry gives them. */
  function ParseRule(v: Config.Value): (r: Option<Rule>)
    ensures r.None? <==>
              || !v.Dict?
              || ("delay_seconds" in v.entries && DelayOf(v.entries["delay_seconds"]).None?)
              || ("backend" in v.entries && !v.entries["backend"].Str?)
    ensures r.Some? ==>
              Delay(r.value) == if "delay_seconds" in v.entries then DelayOf(v.entries["delay_seconds"]).value else 0
    ensures r.Some? ==> (r.value.delaySeconds.Some? <==> "delay_seconds" in v.entries)
    ensures r.Some? ==> (r.value.backend.Some? <==> "backend" in v.entries)
    ensures r.Some? && "backend" in v.entries ==> r.value.backend == Some(v.entries["backend"].s)
    ensures r.Some? ==> r.value.action == if "action" in v.entries then Some(v.entries["action"]) else None
  {
    if !v.Dict? then None
    else
      var m := v.entries;
      if "delay_seconds" in m && DelayOf(m["delay_seconds"]).None? then None
      else if "backend" in m && !m["backend"].Str? then None
      else Some(Rule(
        if "delay_seconds" in m then DelayOf(m["delay_seconds"]) else None,
        if "backend" in m then Some(m["backend"].s) else None,
        if "action" in m then Some(m["action"]) else None))
  }

  /** The escalation list, read entry by entry: it reads as rules exactly when every
      entry does, and then gives one rule per entry, in order. */
  function ParseRules(items: seq<Config.Value>): (r: Option<seq<Rule>>)
    ensures r.Some? <==> forall i :: 0 <= i < |items| ==> ParseRule(items[i]).Some?
    ensures r.Some? ==> |r.value| == |items|
    ensures r.Some? ==> forall i :: 0 <= i < |items| ==> ParseRule(items[i]) == Some(r.value[i])
    decreases |items|
  {
    if items == [] then Some([])
    else
      assert forall i :: 1 <= i < |items| ==> items[1..][i - 1] == items[i];
      match ParseRule(items[0])
      case None => None
      case Some(rule) =>
        match ParseRules(items[1..])
        case None => None
        case Some(rest) => Some([rule] + rest)
  }

  lemma ParseRulesCons(v: Config.Value, rest: seq<Config.Value>)
    ensures ParseRules([v] + rest) ==
              if ParseRule(v).Some? && ParseRules(rest).Some? then Some([ParseRule(v).value] + ParseRules(rest).value)
              else None
  {
    assert ([v] + rest)[0] == v && ([v] + rest)[1..] == rest;
  }

  /** `self._config.get("escalation", [])`, read as rules. */
  function RulesOf(config: Config.Doc): Option<seq<Rule>> {
    match Config.Get(config, "escalation", Config.List([]))
    case List(items) => ParseRules(items)
    case _ => None
  }

  // ------------------------------------------------------------------
  // Backends and their lookup by name
  // ------------------------------------------------------------------

  /** A configured backend instance: its class name and which instance it is. */
  datatype Backend = Backend(className: string, instance: nat)

  function UpperAscii(c: char): char {
    if 'a' <= c <= 'z' then (c as int - 32) as char else c
  }

  function LowerAscii(c: char): char {
    if 'A' <= c <= 'Z' then (c as int + 32) as char else c
  }

  function LowerAll(s: string): (r: string)
    ensures |r| == |s| && forall i :: 0 <= i < |s| ==> r[i] == LowerAscii(s[i])
    decreases |s|
  {
    if s == [] then [] else [LowerAscii(s[0])] + LowerAll(s[1..])
  }

  /** `str.capitalize()` on ASCII: first character upper case, the rest lower case. */
  function Capitalize(s: string): string {
    if s == [] then [] else [UpperAscii(s[0])] + LowerAll(s[1..])
  }

  /** The class name `_get_backend_by_name` looks for. */
  function TargetClass(name: string): string {
    Capitalize(name) + "Backend"
  }

  /** Position of the first backend of class `cls`, or `|backends|` if there is none. */
  function FirstOfClass(backends: seq<Backend>, cls: string): (i: nat)
    ensures i <= |backends|
    ensures i < |backends| ==> backends[i].className == cls
    ensures forall j :: 0 <= j < i ==> backends[j].className != cls
    decreases |backends|
  {
    if backends == [] then 0
    else if backends[0].className == cls then 0
    else 1 + FirstOfClass(backends[1..], cls)
  }

  /** `_get_backend_by_name(name)`: the first backend whose class name is
      `name.capitalize() + "Backend"`, else `None`. It finds nothing exactly when no
      backend has that class; what it finds is a configured backend of that class,
      and no earlier backend in the list has it. */
  function BackendByName(backends: seq<Backend>, name: string): (r: Option<Backend>)
    ensures r.None? <==> forall b :: b in backends ==> b.className != TargetClass(name)
    ensures r.Some? ==> r.value in backends && r.value.className == TargetClass(name)
    ensures r.Some? ==> exists i :: 0 <= i < |backends| && backends[i] == r.value &&
                          forall j :: 0 <= j < i ==> backends[j].className != TargetClass(name)
  {
    var i := FirstOfClass(backends, TargetClass(name));
    if i < |backends| then
      assert backends[i] in backends;
      Some(backends[i])
    else None
  }

  lemma LowerAllIdempotent(s: string)
    ensures LowerAll(LowerAll(s)) == LowerAll(s)
  {
  }

  /** Names are matched case-insensitively: a name and its lower-case form find the same backend. */
  lemma {:induction false} LookupIgnoresCase(backends: seq<Backend>, name: string)
    ensures TargetClass(LowerAll(name)) == TargetClass(name)
    ensures BackendByName(backends, LowerAll(name)) == BackendByName(backends, name)
  {
    if name != [] {
      var l := LowerAll(name);
      assert l[1..] == LowerAll(name[1..]);
      LowerAllIdempotent(name[1..]);
      assert UpperAscii(LowerAscii(name[0])) == UpperAscii(name[0]);
      assert Capitalize(l) == Capitalize(name);
    }
  }

  lemma LowerAllNoUpper(s: string)
    requires forall i :: 0 <= i < |s| ==> !('A' <= s[i] <= 'Z')
    ensures LowerAll(s) == s
  {
  }

  /** The lower-case names used in configurations find the backend classes of the
      package: "audio" looks for `AudioBackend`, and so on. */
  lemma {:induction false} StandardNames()
    ensures TargetClass("audio") == "AudioBackend"
    ensures TargetClass("desktop") == "DesktopBackend"
    ensures TargetClass("webhook") == "WebhookBackend"
  {
    AudioName();
    DesktopName();
    WebhookName();
  }

  lemma AudioName()
    ensures TargetClass("audio") == "AudioBackend"
  {
    LowerAllNoUpper("udio");
    assert "audio"[1..] == "udio";
    assert "audio"[0] == 'a' && UpperAscii('a') == 'A';
    assert "Audio" == ['A'] + "udio";
    assert Capitalize("audio") == "Audio";
    assert "Audio" + "Backend" == "AudioBackend";
  }

  lemma DesktopName()
    ensures TargetClass("desktop") == "DesktopBackend"
  {
    LowerAllNoUpper("esktop");
    assert "desktop"[1..] == "esktop";
    assert "desktop"[0] == 'd' && UpperAscii('d') == 'D';
    assert "Desktop" == ['D'] + "esktop";
    assert Capitalize("desktop") == "Desktop";
    assert "Desktop" + "Backend" == "DesktopBackend";
  }

  lemma WebhookName()
    ensures TargetClass("webhook") == "WebhookBackend"
  {
    LowerAllNoUpper("ebhook");
    assert "webhook"[1..] == "ebhook";
    assert "webhook"[0] == 'w' && UpperAscii('w') == 'W';
    assert "Webhook" == ['W'] + "ebhook";
    assert Capitalize("webhook") == "Webhook";
    assert "Webhook" + "Backend" == "WebhookBackend";
  }

  /** The backend one name resolves to, as a list of zero or one element. */
  function Resolved(backends: seq<Backend>, name: string): seq<Backend> {
    match BackendByName(backends, name)
    case Some(b) => [b]
    case None => []
  }

  /** The backends resolved from `names`, in order, unknown names skipped: every one is a
      configured backend that some name looks up, and every name that looks up a backend
      contributes it. */
  function ResolveAll(backends: seq<Backend>, names: seq<string>): (r: seq<Backend>)
    ensures |r| <= |names|
    ensures forall b :: b in r ==> b in backends && exists n :: n in names && BackendByName(backends, n) == Some(b)
    ensures forall n :: n in names && BackendByName(backends, n).Some? ==> BackendByName(backends, n).value in r
    decreases |names|
  {
    if names == [] then []
    else
      assert names[0] in names;
      assert forall n :: n in names <==> n == names[0] || n in names[1..];
      Resolved(backends, names[0]) + ResolveAll(backends, names[1..])
  }

  lemma {:induction false} ResolveAllSnoc(backends: seq<Backend>, names: seq<string>, n: string)
    ensures ResolveAll(backends, names + [n]) == ResolveAll(backends, names) + Resolved(backends, n)
    decreases |names|
  {
    var ns := names + [n];
    if names == [] {
      assert ns == [n] && ns[1..] == [];
      assert ResolveAll(backends, ns) == Resolved(backends, n) + ResolveAll(backends, []);
    } else {
      assert ns[0] == names[0] && ns[1..] == names[1..] + [n];
      var head := Resolved(backends, names[0]);
      ResolveAllSnoc(backends, names[1..], n);
      assert ResolveAll(backends, ns) == head + (ResolveAll(backends, names[1..]) + Resolved(backends, n));
      AppendAssoc(head, ResolveAll(backends, names[1..]), Resolved(backends, n));
      assert ResolveAll(backends, names) == head + ResolveAll(backends, names[1..]);
    }
  }

  /** Resolving and delivering one more name extends the effects of the prefix. */
  lemma NamedStep(backends: seq<Backend>, names: seq<string>, i: nat, title: string, message: string, hasHistory: bool,
                  eventId: Option<int>, respond: Backend -> Response, at: int)
    requires i < |names|
    ensures DeliverAll(ResolveAll(backends, names[..i + 1]), title, message, hasHistory, eventId, respond, at)
            == DeliverAll(ResolveAll(backends, names[..i]), title, message, hasHistory, eventId, respond, at)
               + DeliverAll(Resolved(backends, names[i]), title, message, hasHistory, eventId, respond, at)
  {
    ResolveAllSnoc(backends, names[..i], names[i]);
    PrefixStep(names, i);
    DeliverAllAppend(ResolveAll(backends, names[..i]), Resolved(backends, names[i]), title, message, hasHistory, eventId, respond, at);
  }

  /** One iteration of the named delivery loop extends both the delivered prefix and the log. */
  lemma NamedLoopStep(backends: seq<Backend>, names: seq<string>, i: nat, title: string, message: string, hasHistory: bool,
                      eventId: Option<int>, respond: Backend -> Response, at: int, log: seq<Effect>, made: seq<Effect>)
    requires i < |names|
    requires made == DeliverAll(ResolveAll(backends, names[..i]), title, message, hasHistory, eventId, respond, at)
    ensures var step := DeliverAll(Resolved(backends, names[i]), title, message, hasHistory, eventId, respond, at);
      && made + step == DeliverAll(ResolveAll(backends, names[..i + 1]), title, message, hasHistory, eventId, respond, at)
      && (log + made) + step == log + (made + step)
  {
    NamedStep(backends, names, i, title, message, hasHistory, eventId, respond, at);
    AppendAssoc(log, made, DeliverAll(Resolved(backends, names[i]), title, message, hasHistory, eventId, respond, at));
  }

  lemma AppendAssoc<T>(a: seq<T>, b: seq<T>, c: seq<T>)
    ensures (a + b) + c == a + (b + c)
  {
  }

  lemma PrefixStep(names: seq<string>, i: nat)
    requires i < |names|
    ensures names[..i + 1] == names[..i] + [names[i]]
  {
  }

  lemma WholePrefix(names: seq<string>)
    ensures names[..|names|] == names
  {
  }

  /** The backends `dispatch` sends to at once: those named by immediate rules, or every
      configured backend when no rule is immediate. Either way each target is a
      configured backend. */
  function ImmediateTargets(backends: seq<Backend>, rules: seq<Rule>): (targets: seq<Backend>)
    ensures forall b :: b in targets ==> b in backends
  {
    var names := ImmediateNames(rules);
    if names == [] then backends else ResolveAll(backends, names)
  }

  /** With no zero-delay backend rule, even when delayed rules exist, every backend is
      targeted, in list order. */
  lemma FallbackToAllBackends(backends: seq<Backend>, rules: seq<Rule>)
    requires forall r :: r in rules ==> !IsImmediate(r)
    ensures ImmediateTargets(backends, rules) == backends
  {
  }

  /** With an immediate rule, only backends that an immediate rule names are targeted,
      never one absent from the rule list. */
  lemma OnlyNamedBackends(backends: seq<Backend>, rules: seq<Rule>, b: Backend)
    requires exists r :: r in rules && IsImmediate(r)
    requires b in ImmediateTargets(backends, rules)
    ensures b in backends
    ensures exists r :: r in rules && IsImmediate(r) && b.className == TargetClass(r.backend.value)
  {
    var n :| n in ImmediateNames(rules) && BackendByName(backends, n) == Some(b);
    var r :| r in rules && IsImmediate(r) && r.backend.value == n;
  }

  // ------------------------------------------------------------------
  // Dispatch outcomes and the calls the router makes
  // ------------------------------------------------------------------

  /** What one `backend.dispatch(title, message)` call does. */
  datatype Response = Returned(triggered: bool) | Raised(error: string)

  /** The status recorded for a dispatch. */
  datatype Status = Success | Suppressed | Failed

  function StatusOf(r: Response): Status {
    match r
    case Returned(t) => if t then Success else Suppressed
    case Raised(_) => Status.Failed
  }

  function ErrorOf(r: Response): Option<string> {
    match r
    case Returned(_) => None
    case Raised(e) => Some(e)
  }

  /** A call from the router to a collaborator. */
  datatype Effect =
    | RecordEvent(event: AgentEvent)
    | CallBackend(backend: Backend, title: string, message: string)
    | RecordDispatch(eventId: int, backendClass: string, status: Status, at: int, errorMessage: Option<string>)

  /** `_dispatch_to_backend`: call the backend, then record the outcome when history
      exists and an event id is known. Nothing is raised: the call goes to that backend
      alone, and one outcome is recorded for it, under the event id, exactly when
      history exists and the id is known. */
  function BackendEffects(b: Backend, title: string, message: string, hasHistory: bool, eventId: Option<int>,
                          response: Response, at: int): (effs: seq<Effect>)
    ensures Calls(effs) == [b]
    ensures Recorded(effs) == if hasHistory && eventId.Some? then [(eventId.value, b.className)] else []
  {
    var call := [CallBackend(b, title, message)];
    var record := if hasHistory && eventId.Some? then [RecordDispatch(eventId.value, b.className, StatusOf(response), at, ErrorOf(response))]
                  else [];
    var effs := call + record;
    assert effs[0] == CallBackend(b, title, message) && effs[1..] == record;
    assert Recorded(effs) == [] + Recorded(record);
    assert record != [] ==> record[1..] == [] && Calls(record) == [] + Calls(record[1..]) &&
                            Recorded(record) == [(eventId.value, b.className)] + Recorded(record[1..]);
    effs
  }

  /** The status recorded is "success" for `True`, "suppressed" for `False`, and
      "failed" with the error text for an exception. */
  lemma RecordedStatus(b: Backend, title: string, message: string, eventId: int, response: Response, at: int)
    ensures var effs := BackendEffects(b, title, message, true, Some(eventId), response, at);
      && (response == Returned(true) ==> effs[1].status == Success && effs[1].errorMessage == None)
      && (response == Returned(false) ==> effs[1].status == Suppressed && effs[1].errorMessage == None)
      && (response.Raised? ==> effs[1].status == Status.Failed && effs[1].errorMessage == Some(response.error))
  {
  }

  /** Dispatching to each of `targets` in turn. */
  function DeliverAll(targets: seq<Backend>, title: string, message: string, hasHistory: bool, eventId: Option<int>,
                      respond: Backend -> Response, at: int): seq<Effect>
    decreases |targets|
  {
    if targets == [] then []
    else BackendEffects(targets[0], title, message, hasHistory, eventId, respond(targets[0]), at)
         + DeliverAll(targets[1..], title, message, hasHistory, eventId, respond, at)
  }

  lemma {:induction false} DeliverAllSnoc(targets: seq<Backend>, b: Backend, title: string, message: string,
                                          hasHistory: bool, eventId: Option<int>, respond: Backend -> Response, at: int)
    ensures DeliverAll(targets + [b], title, message, hasHistory, eventId, respond, at)
            == DeliverAll(targets, title, message, hasHistory, eventId, respond, at)
               + BackendEffects(b, title, message, hasHistory, eventId, respond(b), at)
    decreases |targets|
  {
    if targets == [] {
      assert targets + [b] == [b] && [b][1..] == [];
    } else {
      var ts := targets + [b];
      assert ts[0] == targets[0] && ts[1..] == targets[1..] + [b];
      DeliverAllSnoc(targets[1..], b, title, message, hasHistory, eventId, respond, at);
    }
  }

  lemma {:induction false} DeliverAllAppend(a: seq<Backend>, b: seq<Backend>, title: string, message: string,
                                            hasHistory: bool, eventId: Option<int>, respond: Backend -> Response, at: int)
    ensures DeliverAll(a + b, title, message, hasHistory, eventId, respond, at)
            == DeliverAll(a, title, message, hasHistory, eventId, respond, at)
               + DeliverAll(b, title, message, hasHistory, eventId, respond, at)
    decreases |a|
  {
    if a == [] {
      assert a + b == b;
    } else {
      var ab := a + b;
      assert ab[0] == a[0] && ab[1..] == a[1..] + b;
      DeliverAllAppend(a[1..], b, title, message, hasHistory, eventId, respond, at);
    }
  }

  /** The backends called, in call order. */
  function Calls(effs: seq<Effect>): seq<Backend>
    decreases |effs|
  {
    if effs == [] then []
    else (if effs[0].CallBackend? then [effs[0].backend] else []) + Calls(effs[1..])
  }

  lemma {:induction false} CallsAppend(a: seq<Effect>, b: seq<Effect>)
    ensures Calls(a + b) == Calls(a) + Calls(b)
    decreases |a|
  {
    if a == [] {
      assert a + b == b;
    } else {
      var ab := a + b;
      assert ab[0] == a[0] && ab[1..] == a[1..] + b;
      CallsAppend(a[1..], b);
    }
  }

  /** The outcomes recorded, in order, each as the event id and the backend class. */
  function Recorded(effs: seq<Effect>): seq<(int, string)>
    decreases |effs|
  {
    if effs == [] then []
    else (if effs[0].RecordDispatch? then [(effs[0].eventId, effs[0].backendClass)] else []) + Recorded(effs[1..])
  }

  lemma {:induction false} RecordedAppend(a: seq<Effect>, b: seq<Effect>)
    ensures Recorded(a + b) == Recorded(a) + Recorded(b)
    decreases |a|
  {
    if a == [] {
      assert a + b == b;
    } else {
      var ab := a + b;
      assert ab[0] == a[0] && ab[1..] == a[1..] + b;
      RecordedAppend(a[1..], b);
      var h: seq<(int, string)> := if a[0].RecordDispatch? then [(a[0].eventId, a[0].backendClass)] else [];
      AppendAssoc(h, Recorded(a[1..]), Recorded(b));
    }
  }

  /** One outcome per target, in order, all under the event id `id`. */
  function Stamped(targets: seq<Backend>, id: int): (r: seq<(int, string)>)
    ensures |r| == |targets|
    ensures forall i :: 0 <= i < |targets| ==> r[i] == (id, targets[i].className)
    decreases |targets|
  {
    if targets == [] then [] else [(id, targets[0].className)] + Stamped(targets[1..], id)
  }

  /** Delivering to a list of targets records one outcome per target, in order, under the
      event id, when history exists and the id is known, and records nothing otherwise. */
  lemma {:induction false} DeliverAllRecords(targets: seq<Backend>, title: string, message: string, hasHistory: bool,
                                             eventId: Option<int>, respond: Backend -> Response, at: int)
    ensures Recorded(DeliverAll(targets, title, message, hasHistory, eventId, respond, at)) ==
              if hasHistory && eventId.Some? then Stamped(targets, eventId.value) else []
    decreases |targets|
  {
    if targets != [] {
      var first := BackendEffects(targets[0], title, message, hasHistory, eventId, respond(targets[0]), at);
      RecordedAppend(first, DeliverAll(targets[1..], title, message, hasHistory, eventId, respond, at));
      DeliverAllRecords(targets[1..], title, message, hasHistory, eventId, respond, at);
    }
  }

  /** Dispatching to a list of targets calls each target exactly once, in list order,
      whatever `respond` answers. */
  lemma {:induction false} DeliverAllCallsEachOnce(targets: seq<Backend>, title: string, message: string, hasHistory: bool,
                                                   eventId: Option<int>, respond: Backend -> Response, at: int)
    ensures Calls(DeliverAll(targets, title, message, hasHistory, eventId, respond, at)) == targets
    decreases |targets|
  {
    if targets != [] {
      var first := BackendEffects(targets[0], title, message, hasHistory, eventId, respond(targets[0]), at);
      CallsAppend(first, DeliverAll(targets[1..], title, message, hasHistory, eventId, respond, at));
      DeliverAllCallsEachOnce(targets[1..], title, message, hasHistory, eventId, respond, at);
      assert targets == [targets[0]] + targets[1..];
    }
  }

  lemma {:induction false} NoRecordEventInDelivery(targets: seq<Backend>, title: string, message: string, hasHistory: bool,
                                                   eventId: Option<int>, respond: Backend -> Response, at: int)
    ensures forall e :: e in DeliverAll(targets, title, message, hasHistory, eventId, respond, at) ==> !e.RecordEvent?
    decreases |targets|
  {
    if targets != [] {
      NoRecordEventInDelivery(targets[1..], title, message, hasHistory, eventId, respond, at);
    }
  }

  /** The alert title `"Agent " + state.name.replace("_", " ").title()`, for each state. */
  function AlertTitle(s: AgentState): string {
    match s
    case Running => "Agent Running"
    case WaitingForConfirmation => "Agent Waiting For Confirmation"
    case WaitingForStdin => "Agent Waiting For Stdin"
    case WaitingForPermission => "Agent Waiting For Permission"
    case WaitingForExternalInput => "Agent Waiting For External Input"
    case Stalled => "Agent Stalled"
    case Completed => "Agent Completed"
    case Failed => "Agent Failed"
  }

  /** Different states get different titles, so the title tells the states apart. */
  lemma AlertTitleInjective(a: AgentState, b: AgentState)
    requires AlertTitle(a) == AlertTitle(b)
    ensures a == b
  {
  }

  /** The alert body: the event's source and type on two lines. */
  function AlertMessage(e: AgentEvent): string {
    "Source: " + e.source + "\nType: " + e.eventType
  }

  /** The message identifies its event's source and type when the source holds no
      line break: the first line break of the message is the one before "Type: ". */
  lemma AlertMessageIdentifies(a: AgentEvent, b: AgentEvent)
    requires '\n' !in a.source && '\n' !in b.source
    requires AlertMessage(a) == AlertMessage(b)
    ensures a.source == b.source && a.eventType == b.eventType
  {
    var m := AlertMessage(a);
    var k := |"Source: "|;
    assert forall i :: 0 <= i < |a.source| ==> m[k + i] == a.source[i];
    assert forall i :: 0 <= i < |b.source| ==> m[k + i] == b.source[i];
    assert m[k + |a.source|] == '\n' && m[k + |b.source|] == '\n';
    assert |a.source| == |b.source|;
    assert a.source == m[k..k + |a.source|] == b.source;
    var j := k + |a.source| + |"\nType: "|;
    assert m[j..] == a.eventType;
    assert AlertMessage(b)[j..] == b.eventType;
  }

  /** `event_id`: what `record_event` returned (possibly -1) when history exists, else `None`. */
  function EventIdFor(hasHistory: bool, recordedId: int): Option<int> {
    if hasHistory then Some(recordedId) else None
  }

  /** The calls one `dispatch(event, state)` makes before arming its timers. */
  function DispatchEffects(backends: seq<Backend>, rules: seq<Rule>, hasHistory: bool, event: AgentEvent,
                           state: AgentState, recordedId: int, respond: Backend -> Response, at: int): seq<Effect>
  {
    (if hasHistory then [RecordEvent(event)] else [])
    + DeliverAll(ImmediateTargets(backends, rules), AlertTitle(state), AlertMessage(event), hasHistory,
                 EventIdFor(hasHistory, recordedId), respond, at)
  }

  /** `dispatch` records the event first, and only when history exists; it then calls
      exactly the immediate targets, each once, in order. */
  lemma DispatchCallsImmediateTargets(backends: seq<Backend>, rules: seq<Rule>, hasHistory: bool, event: AgentEvent,
                                      state: AgentState, recordedId: int, respond: Backend -> Response, at: int)
    ensures var effs := DispatchEffects(backends, rules, hasHistory, event, state, recordedId, respond, at);
      && Calls(effs) == ImmediateTargets(backends, rules)
      && (hasHistory ==> effs[0] == RecordEvent(event))
      && (forall e :: e in effs && e.RecordEvent? ==> hasHistory && e == effs[0])
  {
    var head: seq<Effect> := if hasHistory then [RecordEvent(event)] else [];
    var targets := ImmediateTargets(backends, rules);
    var eventId := EventIdFor(hasHistory, recordedId);
    var rest := DeliverAll(targets, AlertTitle(state), AlertMessage(event), hasHistory, eventId, respond, at);
    CallsAppend(head, rest);
    DeliverAllCallsEachOnce(targets, AlertTitle(state), AlertMessage(event), hasHistory, eventId, respond, at);
    assert Calls(head) == [] by {
      if hasHistory {
        assert head[1..] == [];
      }
    }
    NoRecordEventInDelivery(targets, AlertTitle(state), AlertMessage(event), hasHistory, eventId, respond, at);
    assert head + rest == DispatchEffects(backends, rules, hasHistory, event, state, recordedId, respond, at);
  }

  /** With history, `dispatch` records one outcome for each immediate target, in call
      order, under the id `record_event` returned, even when that id is -1; without
      history it records none. */
  lemma DispatchRecordsOutcomes(backends: seq<Backend>, rules: seq<Rule>, hasHistory: bool, event: AgentEvent,
                                state: AgentState, recordedId: int, respond: Backend -> Response, at: int)
    ensures var effs := DispatchEffects(backends, rules, hasHistory, event, state, recordedId, respond, at);
      Recorded(effs) == if hasHistory then Stamped(ImmediateTargets(backends, rules), recordedId) else []
  {
    var head: seq<Effect> := if hasHistory then [RecordEvent(event)] else [];
    var targets := ImmediateTargets(backends, rules);
    var eventId := EventIdFor(hasHistory, recordedId);
    var rest := DeliverAll(targets, AlertTitle(state), AlertMessage(event), hasHistory, eventId, respond, at);
    RecordedAppend(head, rest);
    DeliverAllRecords(targets, AlertTitle(state), AlertMessage(event), hasHistory, eventId, respond, at);
    assert Recorded(head) == [] by {
      if hasHistory {
        assert head[1..] == [];
      }
    }
    assert head + rest == DispatchEffects(backends, rules, hasHistory, event, state, recordedId, respond, at);
  }

  // ------------------------------------------------------------------
  // Escalation timers
  // ------------------------------------------------------------------

  /** What an armed timer does when it fires. */
  datatype Job =
    | Deliver(backend: Backend, title: string, message: string, eventId: Option<int>)
    | AutoPause

  /** An armed `threading.Timer`: the escalation chain that armed it, its delay and its job. */
  datatype Timer = Timer(generation: nat, delay: int, job: Job)

  /** The job the scheduler arms for a delayed rule: a rule naming a backend arms a
      delivery when the name resolves (else nothing); a rule without a backend arms a
      pause when its action is "auto_pause". */
  function JobFor(r: Rule, backends: seq<Backend>, title: string, message: string, eventId: Option<int>): (j: Option<Job>)
    ensures j.None? <==> if r.backend.Some? then forall b :: b in backends ==> b.className != TargetClass(r.backend.value)
                         else !IsAutoPause(r)
    ensures j == Some(AutoPause) <==> r.backend.None? && IsAutoPause(r)
    ensures j.Some? && j.value.Deliver? ==>
              && r.backend.Some? && j.value.backend in backends && j.value.backend.className == TargetClass(r.backend.value)
              && j.value.title == title && j.value.message == message && j.value.eventId == eventId
  {
    if r.backend.Some? then
      match BackendByName(backends, r.backend.value)
      case Some(b) => Some(Deliver(b, title, message, eventId))
      case None => None
    else if IsAutoPause(r) then Some(AutoPause)
    else None
  }

  /** The timers armed for the first `n` delayed rules, keyed by index into the delayed
      sublist: the source's loop, one rule at a time. */
  function Scheduled(delayed: seq<Rule>, n: nat, backends: seq<Backend>, title: string, message: string,
                     eventId: Option<int>, generation: nat): (m: map<nat, Timer>)
    requires n <= |delayed|
    ensures forall k :: k in m ==> k < n && m[k].generation == generation
  {
    if n == 0 then map[]
    else
      var before := Scheduled(delayed, n - 1, backends, title, message, eventId, generation);
      match JobFor(delayed[n - 1], backends, title, message, eventId)
      case Some(job) => before[n - 1 := Timer(generation, Delay(delayed[n - 1]), job)]
      case None => before
  }

  lemma ScheduledStep(delayed: seq<Rule>, n: nat, backends: seq<Backend>, title: string, message: string,
                      eventId: Option<int>, generation: nat)
    requires n < |delayed|
    ensures var job := JobFor(delayed[n], backends, title, message, eventId);
      var before := Scheduled(delayed, n, backends, title, message, eventId, generation);
      Scheduled(delayed, n + 1, backends, title, message, eventId, generation) ==
        if job.Some? then before[n := Timer(generation, Delay(delayed[n]), job.value)] else before
  {
  }

  /** After the first `n` delayed rules, index `i` is pending exactly when `i < n` and
      its rule arms a job; the timer there is that job, under the rule's delay. */
  lemma {:induction false} ScheduledUpTo(delayed: seq<Rule>, n: nat, backends: seq<Backend>, title: string, message: string,
                                         eventId: Option<int>, generation: nat, i: nat)
    requires n <= |delayed|
    ensures i in Scheduled(delayed, n, backends, title, message, eventId, generation) <==>
              i < n && JobFor(delayed[i], backends, title, message, eventId).Some?
    ensures i in Scheduled(delayed, n, backends, title, message, eventId, generation) ==>
              Scheduled(delayed, n, backends, title, message, eventId, generation)[i] ==
                Timer(generation, Delay(delayed[i]), JobFor(delayed[i], backends, title, message, eventId).value)
    decreases n
  {
    if n > 0 {
      var k := n - 1;
      var job := JobFor(delayed[k], backends, title, message, eventId);
      var before := Scheduled(delayed, k, backends, title, message, eventId, generation);
      var after := Scheduled(delayed, n, backends, title, message, eventId, generation);
      ScheduledStep(delayed, k, backends, title, message, eventId, generation);
      ScheduledUpTo(delayed, k, backends, title, message, eventId, generation, i);
      if job.Some? {
        assert after == before[k := Timer(generation, Delay(delayed[k]), job.value)];
      } else {
        assert after == before;
      }
      if i == k {
        assert i !in before;
        assert i in after <==> job.Some?;
      } else {
        assert i in after <==> i in before;
        assert i in after ==> after[i] == before[i];
      }
    }
  }

  /** The pending keys after scheduling are exactly the indices `i` of the delayed
      sublist whose rule names a resolvable backend, or names no backend and has
      action "auto_pause"; each such timer belongs to the new chain and waits the rule's delay. */
  lemma ScheduledKeys(delayed: seq<Rule>, backends: seq<Backend>, title: string, message: string,
                      eventId: Option<int>, generation: nat, i: nat)
    ensures i in Scheduled(delayed, |delayed|, backends, title, message, eventId, generation) <==>
              i < |delayed| &&
              if delayed[i].backend.Some? then BackendByName(backends, delayed[i].backend.value).Some?
              else IsAutoPause(delayed[i])
    ensures i in Scheduled(delayed, |delayed|, backends, title, message, eventId, generation) ==>
              var t := Scheduled(delayed, |delayed|, backends, title, message, eventId, generation)[i];
              t.generation == generation && t.delay == Delay(delayed[i])
  {
    ScheduledUpTo(delayed, |delayed|, backends, title, message, eventId, generation, i);
  }

  /** The calls a firing timer makes: a delivery timer dispatches to its backend exactly
      as an immediate rule does; the pause timer calls nothing. */
  function JobEffects(job: Job, hasHistory: bool, respond: Backend -> Response, at: int): seq<Effect> {
    match job
    case Deliver(b, title, message, eventId) => BackendEffects(b, title, message, hasHistory, eventId, respond(b), at)
    case AutoPause => []
  }

  // ------------------------------------------------------------------
  // The router object
  // ------------------------------------------------------------------

  class AlertRouter {
    const backends: seq<Backend>
    const rules: seq<Rule>
    const hasHistory: bool
    /** `_pending_escalations`, keyed by index into the delayed rules. */
    var pending: map<nat, Timer>
    /** Counts escalation chains; every pending timer belongs to the latest one. */
    var generation: nat
    /** The calls made to backends and to the history sink, in order. */
    ghost var effects: seq<Effect>

    /** At most one escalation chain is live: every pending timer was armed by the
        latest dispatch, under an index of the delayed sublist. */
    ghost predicate Valid()
      reads this
    {
      forall i :: i in pending ==> i < |DelayedRules(rules)| && pending[i].generation == generation
    }

    /** `AlertRouter(backends, config, history)`, given the configuration document and
        whether a history sink exists. */
    constructor (backendList: seq<Backend>, config: Config.Doc, history: bool)
      requires RulesOf(config).Some?
      ensures Valid()
      ensures backends == backendList && rules == RulesOf(config).value && hasHistory == history
      ensures pending == map[] && generation == 0 && effects == []
    {
      backends := backendList;
      rules := RulesOf(config).value;
      hasHistory := history;
      pending := map[];
      generation := 0;
      effects := [];
    }

    /** `_get_backend_by_name`: a linear search for the first backend of the expected class. */
    method GetBackendByName(name: string) returns (r: Option<Backend>)
      ensures r == BackendByName(backends, name)
    {
      var target := TargetClass(name);
      var i := 0;
      while i < |backends|
        invariant 0 <= i <= |backends|
        invariant forall j :: 0 <= j < i ==> backends[j].className != target
      {
        if backends[i].className == target {
          return Some(backends[i]);
        }
        i := i + 1;
      }
      return None;
    }

    /** `_dispatch_to_backend`: an exception from the backend is caught and recorded. */
    method DispatchToBackend(b: Backend, title: string, message: string, eventId: Option<int>,
                             respond: Backend -> Response, now: int)
      modifies this
      ensures effects == old(effects) + BackendEffects(b, title, message, hasHistory, eventId, respond(b), now)
      ensures pending == old(pending) && generation == old(generation)
    {
      var response := respond(b);
      effects := effects + [CallBackend(b, title, message)];
      if hasHistory && eventId.Some? {
        effects := effects + [RecordDispatch(eventId.value, b.className, StatusOf(response), now, ErrorOf(response))];
      }
    }

    /** `dispatch(event, state)`: record the event, deliver to the immediate targets,
        then replace the escalation chain. `recordedId` is what `record_event` returns. */
    method Dispatch(event: AgentEvent, state: AgentState, recordedId: int, respond: Backend -> Response, now: int)
      requires Valid()
      modifies this
      ensures Valid()
      ensures effects == old(effects) + DispatchEffects(backends, rules, hasHistory, event, state, recordedId, respond, now)
      ensures generation == old(generation) + 1
      ensures pending == Scheduled(DelayedRules(rules), |DelayedRules(rules)|, backends, AlertTitle(state), AlertMessage(event),
                                   EventIdFor(hasHistory, recordedId), generation)
    {
      var title := AlertTitle(state);
      var message := AlertMessage(event);
      var eventId: Option<int> := None;
      if hasHistory {
        eventId := Some(recordedId);
        effects := effects + [RecordEvent(event)];
      }
      ghost var head: seq<Effect> := if hasHistory then [RecordEvent(event)] else [];
      assert effects == old(effects) + head;
      assert eventId == EventIdFor(hasHistory, recordedId);
      DeliverImmediate(title, message, eventId, respond, now);
      ghost var rest := DeliverAll(ImmediateTargets(backends, rules), title, message, hasHistory, eventId, respond, now);
      AppendAssoc(old(effects), head, rest);
      ScheduleEscalations(title, message, eventId);
    }

    /** The delivery part of `dispatch`: every backend when no rule is immediate,
        else each immediate rule's backend in rule order, unknown names skipped. */
    method DeliverImmediate(title: string, message: string, eventId: Option<int>, respond: Backend -> Response, now: int)
      modifies this
      ensures effects == old(effects) + DeliverAll(ImmediateTargets(backends, rules), title, message, hasHistory, eventId, respond, now)
      ensures pending == old(pending) && generation == old(generation)
    {
      var names := ImmediateNames(rules);
      if names == [] {
        DeliverToEach(backends, title, message, eventId, respond, now);
      } else {
        DeliverToNamed(names, title, message, eventId, respond, now);
      }
    }

    /** The fallback loop: dispatch to each backend of `targets` in order. */
    method DeliverToEach(targets: seq<Backend>, title: string, message: string, eventId: Option<int>,
                         respond: Backend -> Response, now: int)
      modifies this
      ensures effects == old(effects) + DeliverAll(targets, title, message, hasHistory, eventId, respond, now)
      ensures pending == old(pending) && generation == old(generation)
    {
      var i := 0;
      while i < |targets|
        invariant 0 <= i <= |targets|
        invariant effects == old(effects) + DeliverAll(targets[..i], title, message, hasHistory, eventId, respond, now)
        invariant pending == old(pending) && generation == old(generation)
      {
        ghost var done := DeliverAll(targets[..i], title, message, hasHistory, eventId, respond, now);
        DispatchToBackend(targets[i], title, message, eventId, respond, now);
        DeliverAllSnoc(targets[..i], targets[i], title, message, hasHistory, eventId, respond, now);
        AppendAssoc(old(effects), done, BackendEffects(targets[i], title, message, hasHistory, eventId, respond(targets[i]), now));
        assert targets[..i + 1] == targets[..i] + [targets[i]];
        i := i + 1;
      }
      assert targets[..|targets|] == targets;
    }

    /** The loop over immediate names: look each one up and dispatch when found. */
    method DeliverToNamed(names: seq<string>, title: string, message: string, eventId: Option<int>,
                          respond: Backend -> Response, now: int)
      modifies this
      ensures effects == old(effects) + DeliverAll(ResolveAll(backends, names), title, message, hasHistory, eventId, respond, now)
      ensures pending == old(pending) && generation == old(generation)
    {
      for i := 0 to |names|
        invariant effects == old(effects) + DeliverAll(ResolveAll(backends, names[..i]), title, message, hasHistory, eventId, respond, now)
        invariant pending == old(pending) && generation == old(generation)
      {
        ghost var made := DeliverAll(ResolveAll(backends, names[..i]), title, message, hasHistory, eventId, respond, now);
        DeliverToName(names[i], title, message, eventId, respond, now);
        NamedLoopStep(backends, names, i, title, message, hasHistory, eventId, respond, now, old(effects), made);
      }
      WholePrefix(names);
    }

    /** One iteration of the named loop. */
    method DeliverToName(name: string, title: string, message: string, eventId: Option<int>,
                         respond: Backend -> Response, now: int)
      modifies this
      ensures effects == old(effects) + DeliverAll(Resolved(backends, name), title, message, hasHistory, eventId, respond, now)
      ensures pending == old(pending) && generation == old(generation)
    {
      var b := GetBackendByName(name);
      if b.Some? {
        DispatchToBackend(b.value, title, message, eventId, respond, now);
        assert [b.value][1..] == [];
      }
    }

    /** `_schedule_escalations`: cancel every pending timer, then arm one timer per
        delayed rule that resolves to a backend or is an auto-pause. */
    method ScheduleEscalations(title: string, message: string, eventId: Option<int>)
      modifies this
      ensures Valid()
      ensures generation == old(generation) + 1
      ensures pending == Scheduled(DelayedRules(rules), |DelayedRules(rules)|, backends, title, message, eventId, generation)
      ensures forall i :: i in pending ==> pending[i].generation != old(generation)
      ensures effects == old(effects)
    {
      pending := map[];
      generation := generation + 1;
      var delayed := DelayedRules(rules);
      var i := 0;
      while i < |delayed|
        invariant 0 <= i <= |delayed|
        invariant pending == Scheduled(delayed, i, backends, title, message, eventId, generation)
        invariant effects == old(effects) && generation == old(generation) + 1
      {
        Arm(delayed[i], i, title, message, eventId);
        ScheduledStep(delayed, i, backends, title, message, eventId, generation);
        i := i + 1;
      }
    }

    /** One iteration of the scheduling loop: arm the timer for delayed rule `i`, if any. */
    method Arm(rule: Rule, i: nat, title: string, message: string, eventId: Option<int>)
      modifies this
      ensures JobFor(rule, backends, title, message, eventId).Some? ==>
                pending == old(pending)[i := Timer(generation, Delay(rule), JobFor(rule, backends, title, message, eventId).value)]
      ensures JobFor(rule, backends, title, message, eventId).None? ==> pending == old(pending)
      ensures effects == old(effects) && generation == old(generation)
    {
      var delay := Delay(rule);
      if rule.backend.Some? {
        var b := GetBackendByName(rule.backend.value);
        if b.Some? {
          pending := pending[i := Timer(generation, delay, Deliver(b.value, title, message, eventId))];
        }
      } else if rule.action.Some? && rule.action.value == Config.Str("auto_pause") {
        pending := pending[i := Timer(generation, delay, AutoPause)];
      }
    }

    /** `resolve_block`: cancel every pending timer without firing it; nothing else changes. */
    method ResolveBlock()
      requires Valid()
      modifies this
      ensures Valid()
      ensures pending == map[]
      ensures effects == old(effects) && generation == old(generation)
    {
      pending := map[];
    }

    /** Pending timer `idx` fires: a delivery timer dispatches to its backend, then
        either kind removes only its own key. A cancelled or replaced timer does nothing. */
    method Fire(idx: nat, respond: Backend -> Response, now: int)
      requires Valid()
      modifies this
      ensures Valid()
      ensures generation == old(generation)
      ensures idx !in old(pending) ==> pending == old(pending) && effects == old(effects)
      ensures idx in old(pending) ==>
                pending == old(pending) - {idx} &&
                effects == old(effects) + JobEffects(old(pending)[idx].job, hasHistory, respond, now)
    {
      if idx in pending {
        match pending[idx].job
        case Deliver(b, title, message, eventId) =>
          DispatchToBackend(b, title, message, eventId, respond, now);
          pending := pending - {idx};
        case AutoPause =>
          pending := pending - {idx};
      }
    }
  }

  // ------------------------------------------------------------------
  // The default escalation policy
  // ------------------------------------------------------------------

  /** Under `DEFAULT_CONFIG` the rules are audio at once, desktop after 30 s, webhook
      after 120 s and auto_pause after 600 s. Only audio is immediate, and the delayed
      sublist holds the other three in order. With the backends enabled by default
      (audio and desktop), dispatch calls only the audio backend. */
  lemma {:induction false} DefaultEscalationPolicy(audio: nat, desktop: nat)
    ensures RulesOf(Config.DefaultConfig) == Some([
              Rule(Some(0), Some("audio"), None),
              Rule(Some(30), Some("desktop"), None),
              Rule(Some(120), Some("webhook"), None),
              Rule(Some(600), None, Some(Config.Str("auto_pause")))])
    ensures ImmediateNames(RulesOf(Config.DefaultConfig).value) == ["audio"]
    ensures DelayedRules(RulesOf(Config.DefaultConfig).value) == [
              Rule(Some(30), Some("desktop"), None),
              Rule(Some(120), Some("webhook"), None),
              Rule(Some(600), None, Some(Config.Str("auto_pause")))]
    ensures ImmediateTargets([Backend("AudioBackend", audio), Backend("DesktopBackend", desktop)],
                             RulesOf(Config.DefaultConfig).value) == [Backend("AudioBackend", audio)]
  {
    DefaultRulesParse();
    DefaultImmediateNames();
    DefaultDelayedRules();
    DefaultAudioTarget(audio, desktop);
  }

  lemma DefaultImmediateNames()
    ensures ImmediateNames([Rule(Some(0), Some("audio"), None), Rule(Some(30), Some("desktop"), None),
                            Rule(Some(120), Some("webhook"), None),
                            Rule(Some(600), None, Some(Config.Str("auto_pause")))]) == ["audio"]
  {
    var r0 := Rule(Some(0), Some("audio"), None);
    var r1 := Rule(Some(30), Some("desktop"), None);
    var r2 := Rule(Some(120), Some("webhook"), None);
    var r3 := Rule(Some(600), None, Some(Config.Str("auto_pause")));
    assert [r0] + [r1, r2, r3] == [r0, r1, r2, r3];
    assert [r1] + [r2, r3] == [r1, r2, r3];
    assert [r2] + [r3] == [r2, r3];
    ImmediateNamesDistribute([r0], [r1, r2, r3]);
    ImmediateNamesDistribute([r1], [r2, r3]);
    ImmediateNamesDistribute([r2], [r3]);
  }

  lemma DefaultDelayedRules()
    ensures DelayedRules([Rule(Some(0), Some("audio"), None), Rule(Some(30), Some("desktop"), None),
                          Rule(Some(120), Some("webhook"), None),
                          Rule(Some(600), None, Some(Config.Str("auto_pause")))])
            == [Rule(Some(30), Some("desktop"), None), Rule(Some(120), Some("webhook"), None),
                Rule(Some(600), None, Some(Config.Str("auto_pause")))]
  {
    var r0 := Rule(Some(0), Some("audio"), None);
    var r1 := Rule(Some(30), Some("desktop"), None);
    var r2 := Rule(Some(120), Some("webhook"), None);
    var r3 := Rule(Some(600), None, Some(Config.Str("auto_pause")));
    assert [r0] + [r1, r2, r3] == [r0, r1, r2, r3];
    assert [r1] + [r2, r3] == [r1, r2, r3];
    assert [r2] + [r3] == [r2, r3];
    DelayedRulesDistribute([r0], [r1, r2, r3]);
    DelayedRulesDistribute([r1], [r2, r3]);
    DelayedRulesDistribute([r2], [r3]);
  }

  lemma DefaultAudioTarget(audio: nat, desktop: nat)
    ensures ResolveAll([Backend("AudioBackend", audio), Backend("DesktopBackend", desktop)], ["audio"])
            == [Backend("AudioBackend", audio)]
  {
    var bs := [Backend("AudioBackend", audio), Backend("DesktopBackend", desktop)];
    AudioName();
    assert BackendByName(bs, "audio") == Some(bs[0]);
    assert ["audio"][1..] == [];
    assert ResolveAll(bs, ["audio"]) == [bs[0]] + ResolveAll(bs, []);
  }

  /** The escalation list of `DEFAULT_CONFIG` reads as four well-formed rules. */
  lemma DefaultRulesParse()
    ensures RulesOf(Config.DefaultConfig) == Some([
              Rule(Some(0), Some("audio"), None),
              Rule(Some(30), Some("desktop"), None),
              Rule(Some(120), Some("webhook"), None),
              Rule(Some(600), None, Some(Config.Str("auto_pause")))])
  {
    var items := [Config.RuleEntry(0, "backend", "audio"), Config.RuleEntry(30, "backend", "desktop"),
                  Config.RuleEntry(120, "backend", "webhook"), Config.RuleEntry(600, "action", "auto_pause")];
    assert Config.Get(Config.DefaultConfig, "escalation", Config.List([])) == Config.List(items);
    assert ParseRule(items[0]) == Some(Rule(Some(0), Some("audio"), None));
    assert ParseRule(items[1]) == Some(Rule(Some(30), Some("desktop"), None));
    assert ParseRule(items[2]) == Some(Rule(Some(120), Some("webhook"), None));
    assert ParseRule(items[3]) == Some(Rule(Some(600), None, Some(Config.Str("auto_pause"))));
    var r0 := Rule(Some(0), Some("audio"), None);
    var r1 := Rule(Some(30), Some("desktop"), None);
    var r2 := Rule(Some(120), Some("webhook"), None);
    var r3 := Rule(Some(600), None, Some(Config.Str("auto_pause")));
    var t3: seq<Config.Value> := [items[3]];
    var t2: seq<Config.Value> := [items[2], items[3]];
    var t1: seq<Config.Value> := [items[1], items[2], items[3]];
    ParseRulesCons(items[3], []);
    assert [items[3]] + [] == t3;
    assert ParseRules(t3) == Some([r3] + []);
    assert [r3] + [] == [r3];
    ParseRulesCons(items[2], t3);
    assert [items[2]] + t3 == t2;
    assert ParseRules(t2) == Some([r2] + [r3]);
    assert [r2] + [r3] == [r2, r3];
    ParseRulesCons(items[1], t2);
    assert [items[1]] + t2 == t1;
    assert ParseRules(t1) == Some([r1] + [r2, r3]);
    assert [r1] + [r2, r3] == [r1, r2, r3];
    assert [r0] + [r1, r2, r3] == [r0, r1, r2, r3];
    ParseRulesCons(items[0], t1);
    assert [items[0]] + t1 == items;
    assert ParseRules(items) == Some([r0, r1, r2, r3]);
  }

  /** With the default rules and backends, the armed timers are desktop under delayed
      index 0 and the pause under index 2; the webhook rule (index 1) arms nothing,
      because no webhook backend is enabled by default. */
  lemma {:induction false} DefaultTimers(audio: nat, desktop: nat, title: string, message: string, eventId: Option<int>, gen: nat)
    ensures Scheduled([Rule(Some(30), Some("desktop"), None), Rule(Some(120), Some("webhook"), None),
                       Rule(Some(600), None, Some(Config.Str("auto_pause")))], 3,
                      [Backend("AudioBackend", audio), Backend("DesktopBackend", desktop)], title, message, eventId, gen)
            == map[0 := Timer(gen, 30, Deliver(Backend("DesktopBackend", desktop), title, message, eventId)),
                   2 := Timer(gen, 600, AutoPause)]
  {
    var delayed := [Rule(Some(30), Some("desktop"), None), Rule(Some(120), Some("webhook"), None),
                    Rule(Some(600), None, Some(Config.Str("auto_pause")))];
    var bs := [Backend("AudioBackend", audio), Backend("DesktopBackend", desktop)];
    var d := Deliver(Backend("DesktopBackend", desktop), title, message, eventId);
    DefaultJobs(audio, desktop, title, message, eventId);
    var m0 := Scheduled(delayed, 0, bs, title, message, eventId, gen);
    assert m0 == map[] by {
      assert m0.Keys == {};
    }
    ScheduledStep(delayed, 0, bs, title, message, eventId, gen);
    var m1 := Scheduled(delayed, 1, bs, title, message, eventId, gen);
    assert m1 == map[0 := Timer(gen, 30, d)];
    ScheduledStep(delayed, 1, bs, title, message, eventId, gen);
    var m2 := Scheduled(delayed, 2, bs, title, message, eventId, gen);
    assert m2 == m1;
    ScheduledStep(delayed, 2, bs, title, message, eventId, gen);
    assert Scheduled(delayed, 3, bs, title, message, eventId, gen) == m2[2 := Timer(gen, 600, AutoPause)];
  }

  /** The jobs of the three default delayed rules over the default backends. */
  lemma DefaultJobs(audio: nat, desktop: nat, title: string, message: string, eventId: Option<int>)
    ensures var bs := [Backend("AudioBackend", audio), Backend("DesktopBackend", desktop)];
      && JobFor(Rule(Some(30), Some("desktop"), None), bs, title, message, eventId)
         == Some(Deliver(Backend("DesktopBackend", desktop), title, message, eventId))
      && JobFor(Rule(Some(120), Some("webhook"), None), bs, title, message, eventId) == None
      && JobFor(Rule(Some(600), None, Some(Config.Str("auto_pause"))), bs, title, message, eventId) == Some(AutoPause)
  {
    var bs := [Backend("AudioBackend", audio), Backend("DesktopBackend", desktop)];
    DesktopName();
    WebhookName();
    assert BackendByName(bs, "desktop") == Some(bs[1]);
    assert BackendByName(bs, "webhook") == None by {
      assert FirstOfClass(bs, "WebhookBackend") == 2;
    }
}
}
