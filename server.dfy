/**
 * The tragen server (`tragen/server_tragen/tragenServer.py`): the updater and notifier threads
 * of a server's variables, and the walks of the namespace graph that populate the address
 * space, create the notification events and build the thread rosters.
 */
module TragenServer {
  import opened Wrappers
  import opened PyValues
  import opened NamespaceGraph
  import opened AddressSpace
  import opened Walk

  datatype ServerError =
    | NameError  // `addr` is read but never bound
    | TypeError  // a slice used as a dict key, or arithmetic on a value that is not a number
    | AttributeError  // `_graph` read on `None`

  // ---------------------------------------------------------------- the updater thread

  /** The settings a `VariableNodeValue` is built with. */
  datatype UpdaterConfig = UpdaterConfig(node: Handle, regular: bool, period: real, valSd: real, pdSd: real)

  const DefaultPeriod: real := 0.1
  const DefaultValSd: real := 0.15
  const DefaultPdSd: real := 0.6
  /** The `period = 3` given to irregularly updated variables. */
  const IrregularPeriod: real := 3.0

  /** The thread that moves a variable's value at random, at fixed or at random intervals. */
  class VariableNodeValue {
    const node: Handle
    const regular: bool
    const period: real
    const valSd: real
    const pdSd: real
    var updating: bool

    constructor (node: Handle, regular: bool, period: real, valSd: real, pdSd: real)
      ensures Config() == UpdaterConfig(node, regular, period, valSd, pdSd)
      ensures updating
    {
      this.node := node;
      this.regular := regular;
      this.period := period;
      this.valSd := valSd;
      this.pdSd := pdSd;
      updating := true;
    }

    function Config(): UpdaterConfig
    {
      UpdaterConfig(node, regular, period, valSd, pdSd)
    }

    /** `stop()`: the `run` loop ends after its current round. */
    method Stop()
      modifies this
      ensures !updating
    {
      updating := false;
    }

    /**
     * How long `run` sleeps after an update: the fixed period of a regular updater, otherwise
     * `drawn`, the sample of a normal law around the period that the source draws at that point.
     */
    method SleepInterval(drawn: real) returns (z: real)
      ensures regular ==> z == period
      ensures !regular ==> z == drawn
    {
      z := if regular then period else drawn;
    }
  }

  /** The configurations of a roster of updaters, in order. */
  function Configs(us: seq<VariableNodeValue>): (cs: seq<UpdaterConfig>)
    ensures |cs| == |us|
    decreases |us|
  {
    if us == [] then [] else Configs(us[..|us| - 1]) + [us[|us| - 1].Config()]
  }

  lemma {:induction false} ConfigsAppend(a: seq<VariableNodeValue>, b: seq<VariableNodeValue>)
    ensures Configs(a + b) == Configs(a) + Configs(b)
    decreases |b|
  {
    if b == [] {
      assert a + b == a;
    } else {
      assert (a + b)[..|a + b| - 1] == a + b[..|b| - 1];
      ConfigsAppend(a, b[..|b| - 1]);
    }
  }

  lemma ConfigsSingle(u: VariableNodeValue)
    ensures Configs([u]) == [u.Config()]
  {
    assert [u][..0] == [];
  }

  // ---------------------------------------------------------------- the notifier thread

  /** A critical value: a number, or the default `float("-inf")` / `float("inf")`. */
  datatype Limit = NegInf | PosInf | Finite(r: real)

  /** `val > limit` */
  predicate AboveLimit(val: real, u: Limit)
  {
    match u
    case NegInf => true
    case PosInf => false
    case Finite(r) => val > r
  }

  /** `val < limit` */
  predicate BelowLimit(val: real, l: Limit)
  {
    match l
    case NegInf => false
    case PosInf => true
    case Finite(r) => val < r
  }

  /** `center - 0.2*center` */
  function LowerAround(c: real): real { c - 0.2 * c }

  /** `center + 0.2*center` */
  function UpperAround(c: real): real { c + 0.2 * c }

  function AboveMessage(varName: string): string
  {
    "[#] Warning " + varName + "! Above critical value."
  }

  function BelowMessage(varName: string): string
  {
    "[#] Warning " + varName + "! Below critical value."
  }

  /** The critical values after one round of `run`, and the messages of the events it triggered. */
  datatype Round = Round(lower: Limit, upper: Limit, messages: seq<string>)

  /**
   * One round of the notifier loop on the value `val`: first the upper check, then the lower
   * check against the critical values the first check may just have moved.
   */
  function NotifierRound(lower: Limit, upper: Limit, val: real, varName: string): Round
  {
    var first :=
      if AboveLimit(val, upper) then Round(Finite(LowerAround(val)), Finite(UpperAround(val)), [AboveMessage(varName)])
      else Round(lower, upper, []);
    if BelowLimit(val, first.lower) then
      Round(Finite(LowerAround(val)), Finite(UpperAround(val)), first.messages + [BelowMessage(varName)])
    else first
  }

  /** A round is silent exactly when the value lies between the critical values, which it then keeps. */
  lemma RoundSilentIffInBand(lower: Limit, upper: Limit, val: real, varName: string)
    ensures var r := NotifierRound(lower, upper, val, varName);
            (r.messages == [] <==> !AboveLimit(val, upper) && !BelowLimit(val, lower))
            && (r.messages == [] ==> r.lower == lower && r.upper == upper)
  {
  }

  /** A round that warns re-centres the critical values 20% either side of the value it saw. */
  lemma RoundRecentres(lower: Limit, upper: Limit, val: real, varName: string)
    ensures var r := NotifierRound(lower, upper, val, varName);
            r.messages != [] ==> r.lower == Finite(LowerAround(val)) && r.upper == Finite(UpperAround(val))
  {
  }

  lemma MessagesDiffer(varName: string)
    ensures AboveMessage(varName) != BelowMessage(varName)
  {
    assert AboveMessage(varName)[|varName| + 14] == 'A';
    assert BelowMessage(varName)[|varName| + 14] == 'B';
  }

  /** Which warnings a round triggers, in order. */
  lemma RoundMessages(lower: Limit, upper: Limit, val: real, varName: string)
    ensures var r := NotifierRound(lower, upper, val, varName);
            (AboveLimit(val, upper) <==> |r.messages| >= 1 && r.messages[0] == AboveMessage(varName))
            && (BelowMessage(varName) in r.messages <==> (AboveLimit(val, upper) && val < 0.0) || (!AboveLimit(val, upper) && BelowLimit(val, lower)))
  {
    MessagesDiffer(varName);
  }

  /** A value that is not negative draws at most one warning per round; a negative one above the band, two. */
  lemma RoundWarnsTwiceOnlyWhenNegative(lower: Limit, upper: Limit, val: real, varName: string)
    ensures var r := NotifierRound(lower, upper, val, varName);
            |r.messages| <= 2 && (|r.messages| == 2 <==> AboveLimit(val, upper) && val < 0.0)
  {
  }

  /**
   * Critical values set automatically around a negative value are the wrong way round (the
   * lower one is above the upper one), so every round warns, whatever the value.
   */
  lemma NegativeCentreAlwaysWarns(center: real, val: real, varName: string)
    requires center < 0.0
    ensures NotifierRound(Finite(LowerAround(center)), Finite(UpperAround(center)), val, varName).messages != []
  {
  }

  /** Around a value that is not negative, the automatic critical values keep that value quiet. */
  lemma CentreIsQuiet(center: real, varName: string)
    requires center >= 0.0
    ensures NotifierRound(Finite(LowerAround(center)), Finite(UpperAround(center)), center, varName).messages == []
  {
  }

  /** The number a node value stands for in `center - 0.2*center`, if it is one. */
  function NumericValue(v: PyValue): (r: Option<real>)
    ensures r.Some? <==> v.PyBool? || v.PyInt? || v.PyFloat?
  {
    match v
    case PyBool(b) => Some(if b then 1.0 else 0.0)
    case PyInt(i) => Some(i as real)
    case PyFloat(x) => Some(x)
    case _ => None
  }

  /** The thread that watches a variable and triggers an event when it leaves its critical values. */
  class AsynchronousNotfication {
    const event: EventGenerator
    const node: Handle
    const varName: string
    var running: bool
    var llimit: Limit
    var ulimit: Limit

    /** `__init__`; `center` is the node's value at this moment, only read when `auto` is set. */
    constructor (event: EventGenerator, node: Handle, varName: string,
                 lowerLimit: Limit, upperLimit: Limit, auto: bool, center: real)
      ensures this.event == event && this.node == node && this.varName == varName && running
      ensures !auto ==> llimit == lowerLimit && ulimit == upperLimit
      ensures auto ==> llimit == Finite(LowerAround(center)) && ulimit == Finite(UpperAround(center))
    {
      this.event := event;
      this.node := node;
      this.varName := varName;
      running := true;
      if !auto {
        llimit := lowerLimit;
        ulimit := upperLimit;
      } else {
        llimit := Finite(LowerAround(center));
        ulimit := Finite(UpperAround(center));
      }
    }

    method Stop()
      modifies this
      ensures !running
    {
      running := false;
    }

    /** One round of `run` on the value `val` read from the node; returns the messages triggered. */
    method RunOnce(val: real) returns (messages: seq<string>)
      modifies this
      ensures Round(llimit, ulimit, messages) == NotifierRound(old(llimit), old(ulimit), val, varName)
      ensures running == old(running)
    {
      messages := [];
      if AboveLimit(val, ulimit) {
        llimit := Finite(LowerAround(val));
        ulimit := Finite(UpperAround(val));
        messages := messages + [AboveMessage(varName)];
      }
      if BelowLimit(val, llimit) {
        llimit := Finite(LowerAround(val));
        ulimit := Finite(UpperAround(val));
        messages := messages + [BelowMessage(varName)];
      }
    }
  }

  /**
   * `AsynchronousNotfication(event, var, var_name, lower, upper, auto)` with the value the node
   * holds: with `auto`, a value that is not a number makes the centring arithmetic raise.
   */
  method NewNotifier(event: EventGenerator, node: Handle, varName: string,
                     lowerLimit: Limit, upperLimit: Limit, auto: bool, value: PyValue)
    returns (r: Result<AsynchronousNotfication, ServerError>)
    ensures r.Err? <==> auto && NumericValue(value).None?
    ensures r.Err? ==> r.error == TypeError
    ensures r.Ok? ==> fresh(r.value) && r.value.event == event && r.value.node == node
                      && r.value.varName == varName && r.value.running
    ensures r.Ok? && !auto ==> r.value.llimit == lowerLimit && r.value.ulimit == upperLimit
    ensures r.Ok? && auto ==> r.value.llimit == Finite(LowerAround(NumericValue(value).value))
                              && r.value.ulimit == Finite(UpperAround(NumericValue(value).value))
  {
    if auto && NumericValue(value).None? {
      return Err(TypeError);
    }
    var center := if auto then NumericValue(value).value else 0.0;
    var n := new AsynchronousNotfication(event, node, varName, lowerLimit, upperLimit, auto, center);
    r := Ok(n);
  }

  // ---------------------------------------------------------------- what each walk builds

  /** The node `_rec_populate` adds at a visit; a property marked writable is made so only when its name is not empty. */
  function CreatedOf(v: Visit): seq<Created>
  {
    match v
    case FolderVisit(_, h) => [Created(h, FolderKind, PyNone, false)]
    case ObjectVisit(_, h) => [Created(h, ObjectKind, PyNone, false)]
    case VariableVisit(x, h) => [Created(h, VariableKind, x.value, x.isWritable)]
    case PropertyVisit(p, h) => [Created(h, VariableKind, p.value, p.isWritable && p.name != "")]
  }

  /** The updaters a walk of `set_updaters` appends at a visit: the irregular one first. */
  function UpdatersOf(v: Visit): seq<UpdaterConfig>
  {
    match v
    case VariableVisit(x, h) =>
      (if x.isIrregUd then [UpdaterConfig(h, false, IrregularPeriod, DefaultValSd, DefaultPdSd)] else [])
      + (if x.isRegUd then [UpdaterConfig(h, true, DefaultPeriod, DefaultValSd, DefaultPdSd)] else [])
    case _ => []
  }

  /** What `notifying_events[var_name]` holds. */
  datatype NotifInfo = NotifInfo(srvVar: Handle, tragenVar: TragenVariable, eventGen: EventGenerator)

  /** The companion object and event type `create_notifying_events` adds for a regularly updated variable. */
  function NotifNodesOf(v: Visit): seq<Created>
  {
    match v
    case VariableVisit(x, _) =>
      if x.isRegUd then
        [Created(NotifObjectNode(x.name), ObjectKind, PyNone, false),
         Created(NotifEventType(x.name), EventTypeKind, PyNone, false)]
      else []
    case _ => []
  }

  /** The `notifying_events` entry `create_notifying_events` assigns at a visit. */
  function NotifEntryOf(v: Visit): seq<(string, NotifInfo)>
  {
    match v
    case VariableVisit(x, h) =>
      if x.isRegUd then [(x.name, NotifInfo(h, x, EventGenerator(NotifEventType(x.name), NotifObjectNode(x.name))))]
      else []
    case _ => []
  }

  /** The notification entries that make `set_notifiers` raise: a truthy bound, or a value that is not a number. */
  predicate Faulty(info: NotifInfo, valueOf: Handle -> PyValue)
  {
    Truthy(info.tragenVar.lowerBound) || Truthy(info.tragenVar.upperBound)
    || NumericValue(valueOf(info.srvVar)).None?
  }

  /** `n` is the notifier `set_notifiers` builds for the entry `info`, centred on its node's value. */
  ghost predicate NotifiesFor(n: AsynchronousNotfication, info: NotifInfo, valueOf: Handle -> PyValue)
    reads n
  {
    match NumericValue(valueOf(info.srvVar))
    case None => false
    case Some(c) =>
      n.event == info.eventGen && n.node == info.srvVar && n.running
      && n.llimit == Finite(LowerAround(c)) && n.ulimit == Finite(UpperAround(c))
  }

  /** The arguments of one `AsynchronousNotfication(..., auto=True)` call, with the node's value at that moment. */
  datatype NotifierArgs = NotifierArgs(event: EventGenerator, node: Handle, varName: string, center: real)

  /** The notifiers `set_notifiers` builds before the first entry that makes it raise, and whether there was one. */
  datatype Scan = Scan(args: seq<NotifierArgs>, fault: bool)

  /** The loop of `set_notifiers` over the keys `ks`, in that order. */
  function ScanKeys(events: map<string, NotifInfo>, ks: seq<string>, valueOf: Handle -> PyValue): Scan
    requires forall k :: k in ks ==> k in events
    decreases |ks|
  {
    if ks == [] then Scan([], false)
    else
      var info := events[ks[0]];
      if Faulty(info, valueOf) then Scan([], true)
      else
        var rest := ScanKeys(events, ks[1..], valueOf);
        Scan([NotifierArgs(info.eventGen, info.srvVar, ks[0], NumericValue(valueOf(info.srvVar)).value)] + rest.args, rest.fault)
  }

  /** The loop raises exactly when one of the entries it walks is faulty. */
  lemma {:induction false} ScanFaultIff(events: map<string, NotifInfo>, ks: seq<string>, valueOf: Handle -> PyValue)
    requires forall k :: k in ks ==> k in events
    ensures ScanKeys(events, ks, valueOf).fault <==> exists i :: 0 <= i < |ks| && Faulty(events[ks[i]], valueOf)
    decreases |ks|
  {
    if ks != [] {
      ScanFaultIff(events, ks[1..], valueOf);
      if exists i :: 0 <= i < |ks| - 1 && Faulty(events[ks[1..][i]], valueOf) {
        var i :| 0 <= i < |ks| - 1 && Faulty(events[ks[1..][i]], valueOf);
        assert ks[i + 1] == ks[1..][i];
      }
      if exists i :: 1 <= i < |ks| && Faulty(events[ks[i]], valueOf) {
        var i :| 1 <= i < |ks| && Faulty(events[ks[i]], valueOf);
        assert ks[1..][i - 1] == ks[i];
      }
    }
  }

  /** The loop builds one notifier per entry, in order, up to the first faulty entry. */
  lemma {:induction false} ScanBuildsPrefix(events: map<string, NotifInfo>, ks: seq<string>, valueOf: Handle -> PyValue)
    requires forall k :: k in ks ==> k in events
    ensures var s := ScanKeys(events, ks, valueOf);
            |s.args| <= |ks|
            && (forall i :: 0 <= i < |s.args| ==>
                  !Faulty(events[ks[i]], valueOf)
                  && s.args[i] == NotifierArgs(events[ks[i]].eventGen, events[ks[i]].srvVar, ks[i],
                                               NumericValue(valueOf(events[ks[i]].srvVar)).value))
            && (s.fault ==> |s.args| < |ks| && Faulty(events[ks[|s.args|]], valueOf))
            && (!s.fault ==> |s.args| == |ks|)
    decreases |ks|
  {
    if ks != [] && !Faulty(events[ks[0]], valueOf) {
      ScanBuildsPrefix(events, ks[1..], valueOf);
      var rest := ScanKeys(events, ks[1..], valueOf);
      forall i | 1 <= i < |rest.args| + 1
        ensures ks[i] == ks[1..][i - 1]
      {
      }
    }
  }

  /** `ns` holds one notifier per key of `ks`, from the first on, each for a key whose entry does not raise. */
  ghost predicate BuiltAlong(ns: seq<AsynchronousNotfication>, ks: seq<string>, events: map<string, NotifInfo>, valueOf: Handle -> PyValue)
    reads set i | 0 <= i < |ns| :: ns[i]
  {
    && |ns| <= |ks|
    && forall i :: 0 <= i < |ns| ==>
         ks[i] in events && ns[i].varName == ks[i] && !Faulty(events[ks[i]], valueOf) && NotifiesFor(ns[i], events[ks[i]], valueOf)
  }

  /**
   * `n` is `n0` followed by the notifiers built along `ks`: all of them when nothing raised,
   * and otherwise those for the keys before the first one whose entry raises.
   */
  ghost predicate ExtendedAlong(n0: seq<AsynchronousNotfication>, n: seq<AsynchronousNotfication>, ks: seq<string>,
                                events: map<string, NotifInfo>, valueOf: Handle -> PyValue, fault: bool)
    reads set i | 0 <= i < |n| :: n[i]
  {
    && |n0| <= |n| <= |n0| + |ks|
    && n[..|n0|] == n0
    && (!fault ==> |n| == |n0| + |ks|)
    && (fault ==> |n| < |n0| + |ks| && ks[|n| - |n0|] in events && Faulty(events[ks[|n| - |n0|]], valueOf))
    && BuiltAlong(n[|n0|..], ks, events, valueOf)
  }

  /** Appending what `BuildNotifiers` returns to `n0` extends `n0` along `ks`. */
  lemma AppendBuilt(n0: seq<AsynchronousNotfication>, ns: seq<AsynchronousNotfication>, ks: seq<string>,
                    events: map<string, NotifInfo>, valueOf: Handle -> PyValue, fault: bool)
    requires forall k :: k in ks <==> k in events
    requires |ns| <= |ks| && (!fault ==> |ns| == |ks|)
    requires fault ==> |ns| < |ks| && Faulty(events[ks[|ns|]], valueOf)
    requires BuiltAlong(ns, ks, events, valueOf)
    ensures ExtendedAlong(n0, n0 + ns, ks, events, valueOf, fault)
  {
    assert (n0 + ns)[..|n0|] == n0 && (n0 + ns)[|n0|..] == ns;
  }

  /**
   * The loop of `set_notifiers` over `events`, in the dict's iteration order: the notifiers
   * built before the loop raises, and whether it raised. A truthy bound or a value that is not
   * a number raises `TypeError`.
   */
  method BuildNotifiers(events: map<string, NotifInfo>, valueOf: Handle -> PyValue)
    returns (ks: seq<string>, ns: seq<AsynchronousNotfication>, fault: bool)
    ensures forall k :: k in ks <==> k in events
    ensures forall i, j :: 0 <= i < j < |ks| ==> ks[i] != ks[j]
    ensures |ks| == |events|
    ensures fault <==> exists k :: k in events && Faulty(events[k], valueOf)
    ensures |ns| <= |ks| && (!fault ==> |ns| == |ks|)
    ensures fault ==> |ns| < |ks| && Faulty(events[ks[|ns|]], valueOf)
    ensures forall i :: 0 <= i < |ns| ==> fresh(ns[i])
    ensures BuiltAlong(ns, ks, events, valueOf)
  {
    ks := KeyOrder(events);
    ScanFaultOverKeys(events, ks, valueOf);
    ns, fault := NotifiersAlong(events, ks, valueOf);
  }

  /** The loop of `set_notifiers` over the keys `ks`, in that order. */
  method NotifiersAlong(events: map<string, NotifInfo>, ks: seq<string>, valueOf: Handle -> PyValue)
    returns (ns: seq<AsynchronousNotfication>, fault: bool)
    requires forall k :: k in ks ==> k in events
    requires forall i, j :: 0 <= i < j < |ks| ==> ks[i] != ks[j]
    ensures fault == ScanKeys(events, ks, valueOf).fault
    ensures |ns| <= |ks| && (!fault ==> |ns| == |ks|)
    ensures forall i :: 0 <= i < |ns| ==> fresh(ns[i])
    ensures forall i :: 0 <= i < |ns| ==> ns[i].varName == ks[i]
    ensures forall i :: 0 <= i < |ns| ==> NotifiesFor(ns[i], events[ks[i]], valueOf)
    ensures forall i :: 0 <= i < |ns| ==> !Faulty(events[ks[i]], valueOf)
    ensures fault ==> |ns| < |ks| && Faulty(events[ks[|ns|]], valueOf)
  {
    var scan := ScanKeys(events, ks, valueOf);
    ScanArgsOverKeys(events, ks, valueOf);
    ScanBuildsPrefix(events, ks, valueOf);
    var infos := seq(|scan.args|, i requires 0 <= i < |scan.args| => events[ks[i]]);
    ns := MakeNotifiers(scan.args, infos, valueOf);
    fault := scan.fault;
  }

  /** `a` holds the arguments `set_notifiers` passes for the entry `info`. */
  ghost predicate ArgsFor(a: NotifierArgs, info: NotifInfo, valueOf: Handle -> PyValue)
  {
    a.event == info.eventGen && a.node == info.srvVar && NumericValue(valueOf(info.srvVar)) == Some(a.center)
  }

  /** A notifier built from the arguments of an entry, with `auto` set, notifies for that entry. */
  lemma NotifierFromArgs(n: AsynchronousNotfication, a: NotifierArgs, info: NotifInfo, valueOf: Handle -> PyValue)
    requires ArgsFor(a, info, valueOf)
    requires n.event == a.event && n.node == a.node && n.running
    requires n.llimit == Finite(LowerAround(a.center)) && n.ulimit == Finite(UpperAround(a.center))
    ensures NotifiesFor(n, info, valueOf)
  {
  }

  /** Over an enumeration of all keys, the loop raises iff some entry of the map is faulty. */
  lemma ScanFaultOverKeys(events: map<string, NotifInfo>, ks: seq<string>, valueOf: Handle -> PyValue)
    requires forall k :: k in ks <==> k in events
    ensures ScanKeys(events, ks, valueOf).fault <==> exists k :: k in events && Faulty(events[k], valueOf)
  {
    ScanFaultIff(events, ks, valueOf);
    if exists k :: k in events && Faulty(events[k], valueOf) {
      var k :| k in events && Faulty(events[k], valueOf);
      var i :| 0 <= i < |ks| && ks[i] == k;
    }
  }

  /** Over an enumeration of distinct keys, the loop builds one notifier per key it passes, each for its own entry. */
  lemma ScanArgsOverKeys(events: map<string, NotifInfo>, ks: seq<string>, valueOf: Handle -> PyValue)
    requires forall k :: k in ks ==> k in events
    requires forall i, j :: 0 <= i < j < |ks| ==> ks[i] != ks[j]
    ensures var s := ScanKeys(events, ks, valueOf);
            && |s.args| <= |ks| && (!s.fault ==> |s.args| == |ks|)
            && (forall i :: 0 <= i < |s.args| ==> s.args[i].varName == ks[i])
            && (forall i :: 0 <= i < |s.args| ==> ArgsFor(s.args[i], events[ks[i]], valueOf))
            && (forall i, j :: 0 <= i < j < |s.args| ==> s.args[i].varName != s.args[j].varName)
  {
    var s := ScanKeys(events, ks, valueOf);
    ScanBuildsPrefix(events, ks, valueOf);
    forall i | 0 <= i < |s.args|
      ensures s.args[i].varName == ks[i] && ArgsFor(s.args[i], events[ks[i]], valueOf)
    {
      assert !Faulty(events[ks[i]], valueOf);
    }
  }

  /** `AsynchronousNotfication(event, var, var_name, auto=True)` for each of `args`, in order. */
  method MakeNotifiers(args: seq<NotifierArgs>, ghost infos: seq<NotifInfo>, ghost valueOf: Handle -> PyValue)
    returns (ns: seq<AsynchronousNotfication>)
    requires |infos| == |args|
    requires forall i :: 0 <= i < |args| ==> ArgsFor(args[i], infos[i], valueOf)
    ensures |ns| == |args|
    ensures forall i :: 0 <= i < |ns| ==> fresh(ns[i])
    ensures forall i :: 0 <= i < |ns| ==> ns[i].varName == args[i].varName
    ensures forall i :: 0 <= i < |ns| ==> NotifiesFor(ns[i], infos[i], valueOf)
  {
    ns := [];
    var i := 0;
    while i < |args|
      invariant 0 <= i <= |args| && |ns| == i
      invariant forall j :: 0 <= j < i ==> fresh(ns[j])
      invariant forall j :: 0 <= j < i ==> ns[j].varName == args[j].varName
      invariant forall j :: 0 <= j < i ==> NotifiesFor(ns[j], infos[j], valueOf)
    {
      var a := args[i];
      var n := new AsynchronousNotfication(a.event, a.node, a.varName, NegInf, PosInf, true, a.center);
      NotifierFromArgs(n, a, infos[i], valueOf);
      ns := ns + [n];
      i := i + 1;
    }
  }

  // ---------------------------------------------------------------- what the rosters hold

  /** `_rec_populate` creates exactly one node per visit, the node the visit reaches, of the visit's kind. */
  lemma {:induction false} OneNodePerVisit(vs: seq<Visit>)
    ensures |FlatMap(vs, CreatedOf)| == |vs|
    ensures forall i :: 0 <= i < |vs| ==> FlatMap(vs, CreatedOf)[i].node == vs[i].node
    ensures forall i :: 0 <= i < |vs| ==>
              (FlatMap(vs, CreatedOf)[i].kind == VariableKind <==> vs[i].VariableVisit? || vs[i].PropertyVisit?)
    decreases |vs|
  {
    if vs != [] {
      var init := vs[..|vs| - 1];
      OneNodePerVisit(init);
      forall i | 0 <= i < |init|
        ensures vs[i] == init[i]
      {
      }
    }
  }

  /** Only a variable created writable, or a named property created writable, ends up writable. */
  lemma {:induction false} WritableNodes(vs: seq<Visit>, i: nat)
    requires i < |vs|
    ensures |FlatMap(vs, CreatedOf)| == |vs|
    ensures FlatMap(vs, CreatedOf)[i].writable <==>
              (vs[i].VariableVisit? && vs[i].variable.isWritable)
              || (vs[i].PropertyVisit? && vs[i].property.isWritable && vs[i].property.name != "")
    decreases |vs|
  {
    OneNodePerVisit(vs);
    if i < |vs| - 1 {
      WritableNodes(vs[..|vs| - 1], i);
    }
  }

  /** The updater `set_updaters` starts for one flag of a variable. */
  function UpdaterFor(h: Handle, regular: bool): UpdaterConfig
  {
    if regular then UpdaterConfig(h, true, DefaultPeriod, DefaultValSd, DefaultPdSd)
    else UpdaterConfig(h, false, IrregularPeriod, DefaultValSd, DefaultPdSd)
  }

  /**
   * An updater runs for a node iff the walk visits a variable there with the matching flag: a
   * regular one every 0.1 s for `isRegUd`, an irregular one around 3 s for `isIrregUd`.
   */
  lemma UpdaterRoster(vs: seq<Visit>, u: UpdaterConfig)
    ensures u in FlatMap(vs, UpdatersOf) <==>
            exists i :: 0 <= i < |vs| && vs[i].VariableVisit?
                        && ((vs[i].variable.isRegUd && u == UpdaterFor(vs[i].node, true))
                            || (vs[i].variable.isIrregUd && u == UpdaterFor(vs[i].node, false)))
  {
    FlatMapMember(vs, UpdatersOf, u);
  }

  /** The key `k` is in `notifying_events` iff the walk visits a regularly updated variable named `k`. */
  lemma {:induction false} NotifyingKeys(vs: seq<Visit>, k: string)
    ensures k in Assign(map[], FlatMap(vs, NotifEntryOf)) <==>
            exists i :: 0 <= i < |vs| && vs[i].VariableVisit? && vs[i].variable.isRegUd && vs[i].variable.name == k
    decreases |vs|
  {
    var kvs := FlatMap(vs, NotifEntryOf);
    AssignKeys(map[], kvs, k);
    if exists j :: 0 <= j < |kvs| && kvs[j].0 == k {
      var j :| 0 <= j < |kvs| && kvs[j].0 == k;
      FlatMapMember(vs, NotifEntryOf, kvs[j]);
    }
    if exists i :: 0 <= i < |vs| && vs[i].VariableVisit? && vs[i].variable.isRegUd && vs[i].variable.name == k {
      var i :| 0 <= i < |vs| && vs[i].VariableVisit? && vs[i].variable.isRegUd && vs[i].variable.name == k;
      var p := NotifEntryOf(vs[i])[0];
      FlatMapMember(vs, NotifEntryOf, p);
      var j :| 0 <= j < |kvs| && kvs[j] == p;
    }
  }

  /** The entry of a name is the one of the last regularly updated variable of that name the walk visits. */
  lemma {:induction false} NotifyingLastWins(vs: seq<Visit>, i: nat)
    requires i < |vs| && vs[i].VariableVisit? && vs[i].variable.isRegUd
    requires forall j :: i < j < |vs| && vs[j].VariableVisit? && vs[j].variable.isRegUd ==>
               vs[j].variable.name != vs[i].variable.name
    ensures var x := vs[i].variable;
            var events := Assign(map[], FlatMap(vs, NotifEntryOf));
            x.name in events
            && events[x.name] == NotifInfo(vs[i].node, x, EventGenerator(NotifEventType(x.name), NotifObjectNode(x.name)))
    decreases |vs|
  {
    var init := vs[..|vs| - 1];
    var last := NotifEntryOf(vs[|vs| - 1]);
    AssignAppend(map[], FlatMap(init, NotifEntryOf), last);
    if i < |vs| - 1 {
      NotifyingLastWins(init, i);
      AssignUntouched(Assign(map[], FlatMap(init, NotifEntryOf)), last, vs[i].variable.name);
    } else {
      assert [vs[i]] == vs[i..];
      AssignLastWins(Assign(map[], FlatMap(init, NotifEntryOf)), last, 0);
    }
  }

  /** Every name with a notification entry is also a readable item. */
  lemma NotifyingAreReadable(vs: seq<Visit>, k: string)
    requires k in Assign(map[], FlatMap(vs, NotifEntryOf))
    ensures k in FlatMap(vs, ReadableOf)
  {
    NotifyingKeys(vs, k);
    ReadableNames(vs, k);
  }

  // ---------------------------------------------------------------- the server

  class ServerTragen {
    const name: Option<string>
    const uri: string
    const independant: bool
    var rootNode: Option<Handle>
    var objects: Option<Handle>
    /** The nodes added to the address space, in the order they were added. */
    var space: seq<Created>
    var readableItems: seq<string>
    var writableVariables: seq<string>
    var notifyingEvents: map<string, NotifInfo>
    /** `var_updaters` and `notifiers`, which exist only on an independent server. */
    var varUpdaters: Option<seq<VariableNodeValue>>
    var notifiers: Option<seq<AsynchronousNotfication>>

    /** `__init__` with `by_uri` set; see `NewServer` for the other case. */
    constructor (srvUri: string, name: Option<string>, independant: bool)
      ensures this.uri == srvUri && this.name == name && this.independant == independant
      ensures rootNode == None && objects == None
      ensures space == [] && readableItems == [] && writableVariables == [] && notifyingEvents == map[]
      ensures varUpdaters == (if independant then Some([]) else None)
      ensures notifiers == (if independant then Some([]) else None)
    {
      this.uri := srvUri;
      this.name := name;
      this.independant := independant;
      rootNode := None;
      objects := None;
      space := [];
      readableItems := [];
      writableVariables := [];
      notifyingEvents := map[];
      varUpdaters := if independant then Some([]) else None;
      notifiers := if independant then Some([]) else None;
    }

    /** The fields the populating walk leaves alone are as they were. */
    twostate predicate KeepsTables()
      reads this
    {
      rootNode == old(rootNode) && objects == old(objects) && notifyingEvents == old(notifyingEvents)
      && varUpdaters == old(varUpdaters) && notifiers == old(notifiers)
    }

    /** The fields the notification walk leaves alone are as they were. */
    twostate predicate KeepsLists()
      reads this
    {
      rootNode == old(rootNode) && objects == old(objects) && readableItems == old(readableItems)
      && writableVariables == old(writableVariables) && varUpdaters == old(varUpdaters) && notifiers == old(notifiers)
    }

    // ------------------------------------------------------------ _rec_populate

    /** `_rec_populate(root, objects, lv)`: one node per visit, the readable and writable names on the way. */
    method RecPopulate(lv: Level, root: Handle, objects: Handle)
      modifies this
      ensures space == old(space) + FlatMap(Visits(lv, root, objects), CreatedOf)
      ensures readableItems == old(readableItems) + FlatMap(Visits(lv, root, objects), ReadableOf)
      ensures writableVariables == old(writableVariables) + FlatMap(Visits(lv, root, objects), WritableOf)
      ensures KeepsTables()
      decreases lv, 2
    {
      PopulateFolders(lv, root);
      PopulateObjects(lv.objects, objects);
      PopulateVariables(lv.variables, root);
      PopulateProperties(lv.properties, root);
      PopulateJoin(lv, root, objects, old(space), CreatedOf);
      PopulateJoin(lv, root, objects, old(readableItems), ReadableOf);
      PopulateJoin(lv, root, objects, old(writableVariables), WritableOf);
    }

    /** The four loops of `_rec_populate`, one after the other, extend a list by the whole walk. */
    static lemma PopulateJoin<T>(lv: Level, root: Handle, objects: Handle, s0: seq<T>, f: Visit -> seq<T>)
      ensures s0 + FlatMap(FolderVisits(lv, root, |lv.folders|), f)
              + FlatMap(ObjectVisits(lv.objects, objects, |lv.objects|), f)
              + FlatMap(VariableVisits(lv.variables, root, |lv.variables|), f)
              + FlatMap(PropertyVisits(lv.properties, root, |lv.properties|), f)
              == s0 + FlatMap(Visits(lv, root, objects), f)
    {
      VisitsSplit(lv, root, objects, f);
      AppendFour(s0, FlatMap(FolderVisits(lv, root, |lv.folders|), f),
                 FlatMap(ObjectVisits(lv.objects, objects, |lv.objects|), f),
                 FlatMap(VariableVisits(lv.variables, root, |lv.variables|), f),
                 FlatMap(PropertyVisits(lv.properties, root, |lv.properties|), f));
    }

    method PopulateFolders(lv: Level, root: Handle)
      modifies this
      ensures space == old(space) + FlatMap(FolderVisits(lv, root, |lv.folders|), CreatedOf)
      ensures readableItems == old(readableItems) + FlatMap(FolderVisits(lv, root, |lv.folders|), ReadableOf)
      ensures writableVariables == old(writableVariables) + FlatMap(FolderVisits(lv, root, |lv.folders|), WritableOf)
      ensures KeepsTables()
      decreases lv, 1
    {
      var i := 0;
      while i < |lv.folders|
        invariant 0 <= i <= |lv.folders|
        invariant space == old(space) + FlatMap(FolderVisits(lv, root, i), CreatedOf)
        invariant readableItems == old(readableItems) + FlatMap(FolderVisits(lv, root, i), ReadableOf)
        invariant writableVariables == old(writableVariables) + FlatMap(FolderVisits(lv, root, i), WritableOf)
        invariant KeepsTables()
      {
        PopulateFolder(lv, root, i);
        FolderExtends(lv, root, i, old(space), CreatedOf);
        FolderExtends(lv, root, i, old(readableItems), ReadableOf);
        FolderExtends(lv, root, i, old(writableVariables), WritableOf);
        i := i + 1;
      }
    }

    /** One round of the folders loop of `_rec_populate`: the folder's node, then its contents under it. */
    method PopulateFolder(lv: Level, root: Handle, i: nat)
      requires i < |lv.folders|
      modifies this
      ensures var e := lv.folders[i];
              var h := ChildOf(root, e.folder.namespace, e.folder.name);
              space == old(space) + (CreatedOf(FolderVisit(e.folder, h)) + FlatMap(Visits(e.content, h, h), CreatedOf))
              && readableItems == old(readableItems) + (ReadableOf(FolderVisit(e.folder, h)) + FlatMap(Visits(e.content, h, h), ReadableOf))
              && writableVariables == old(writableVariables) + (WritableOf(FolderVisit(e.folder, h)) + FlatMap(Visits(e.content, h, h), WritableOf))
      ensures KeepsTables()
      decreases lv, 0
    {
      var e := lv.folders[i];
      var folderNode := ChildOf(root, e.folder.namespace, e.folder.name);
      space := space + [Created(folderNode, FolderKind, PyNone, false)];
      RecPopulate(e.content, folderNode, folderNode);
      AppendAssoc(old(space), [Created(folderNode, FolderKind, PyNone, false)], FlatMap(Visits(e.content, folderNode, folderNode), CreatedOf));
    }

    method PopulateObjects(os: seq<ObjectEntry>, objects: Handle)
      modifies this
      ensures space == old(space) + FlatMap(ObjectVisits(os, objects, |os|), CreatedOf)
      ensures readableItems == old(readableItems) + FlatMap(ObjectVisits(os, objects, |os|), ReadableOf)
      ensures writableVariables == old(writableVariables) + FlatMap(ObjectVisits(os, objects, |os|), WritableOf)
      ensures KeepsTables()
    {
      var i := 0;
      while i < |os|
        invariant 0 <= i <= |os|
        invariant space == old(space) + FlatMap(ObjectVisits(os, objects, i), CreatedOf)
        invariant readableItems == old(readableItems) + FlatMap(ObjectVisits(os, objects, i), ReadableOf)
        invariant writableVariables == old(writableVariables) + FlatMap(ObjectVisits(os, objects, i), WritableOf)
        invariant KeepsTables()
      {
        PopulateObject(os[i], objects);
        ObjectExtends(os, objects, i, old(space), CreatedOf);
        ObjectExtends(os, objects, i, old(readableItems), ReadableOf);
        ObjectExtends(os, objects, i, old(writableVariables), WritableOf);
        i := i + 1;
      }
    }

    /** One round of the objects loop of `_rec_populate`: the object's node, then its content under it. */
    method PopulateObject(e: ObjectEntry, objects: Handle)
      modifies this
      ensures var h := ChildOf(objects, e.obj.namespace, e.obj.name);
              space == old(space) + (CreatedOf(ObjectVisit(e.obj, h)) + FlatMap(ContentVisits(e.content, h), CreatedOf))
              && readableItems == old(readableItems) + (ReadableOf(ObjectVisit(e.obj, h)) + FlatMap(ContentVisits(e.content, h), ReadableOf))
              && writableVariables == old(writableVariables) + (WritableOf(ObjectVisit(e.obj, h)) + FlatMap(ContentVisits(e.content, h), WritableOf))
      ensures KeepsTables()
    {
      var objNode := ChildOf(objects, e.obj.namespace, e.obj.name);
      space := space + [Created(objNode, ObjectKind, PyNone, false)];
      PopulateContent(e.content, objNode);
      AppendAssoc(old(space), [Created(objNode, ObjectKind, PyNone, false)], FlatMap(ContentVisits(e.content, objNode), CreatedOf));
    }

    /** `_rec_populate` on an object's content, which has neither folders nor objects. */
    method PopulateContent(c: ObjectContent, h: Handle)
      modifies this
      ensures space == old(space) + FlatMap(ContentVisits(c, h), CreatedOf)
      ensures readableItems == old(readableItems) + FlatMap(ContentVisits(c, h), ReadableOf)
      ensures writableVariables == old(writableVariables) + FlatMap(ContentVisits(c, h), WritableOf)
      ensures KeepsTables()
    {
      PopulateVariables(c.variables, h);
      PopulateProperties(c.properties, h);
      ContentJoin(c, h, old(space), CreatedOf);
      ContentJoin(c, h, old(readableItems), ReadableOf);
      ContentJoin(c, h, old(writableVariables), WritableOf);
    }

    method PopulateVariables(vs: seq<TragenVariable>, root: Handle)
      modifies this
      ensures space == old(space) + FlatMap(VariableVisits(vs, root, |vs|), CreatedOf)
      ensures readableItems == old(readableItems) + FlatMap(VariableVisits(vs, root, |vs|), ReadableOf)
      ensures writableVariables == old(writableVariables) + FlatMap(VariableVisits(vs, root, |vs|), WritableOf)
      ensures KeepsTables()
    {
      var i := 0;
      while i < |vs|
        invariant 0 <= i <= |vs|
        invariant space == old(space) + FlatMap(VariableVisits(vs, root, i), CreatedOf)
        invariant readableItems == old(readableItems) + FlatMap(VariableVisits(vs, root, i), ReadableOf)
        invariant writableVariables == old(writableVariables) + FlatMap(VariableVisits(vs, root, i), WritableOf)
        invariant KeepsTables()
      {
        PopulateVariable(vs[i], root);
        VariableExtends(vs, root, i, old(space), CreatedOf);
        VariableExtends(vs, root, i, old(readableItems), ReadableOf);
        VariableExtends(vs, root, i, old(writableVariables), WritableOf);
        i := i + 1;
      }
    }

    /** One round of the variables loop of `_rec_populate`. */
    method PopulateVariable(x: TragenVariable, root: Handle)
      modifies this
      ensures space == old(space) + CreatedOf(VariableVisit(x, ChildOf(root, x.namespace, x.name)))
      ensures readableItems == old(readableItems) + ReadableOf(VariableVisit(x, ChildOf(root, x.namespace, x.name)))
      ensures writableVariables == old(writableVariables) + WritableOf(VariableVisit(x, ChildOf(root, x.namespace, x.name)))
      ensures KeepsTables()
    {
      var tmp := ChildOf(root, x.namespace, x.name);
      space := space + [Created(tmp, VariableKind, x.value, false)];
      readableItems := readableItems + [x.name];
      if x.isWritable {
        // tmp.set_writable()
        space := space[|space| - 1 := Created(tmp, VariableKind, x.value, true)];
        writableVariables := writableVariables + [x.name];
      }
    }

    method PopulateProperties(ps: seq<TragenProperty>, root: Handle)
      modifies this
      ensures space == old(space) + FlatMap(PropertyVisits(ps, root, |ps|), CreatedOf)
      ensures readableItems == old(readableItems) + FlatMap(PropertyVisits(ps, root, |ps|), ReadableOf)
      ensures writableVariables == old(writableVariables) + FlatMap(PropertyVisits(ps, root, |ps|), WritableOf)
      ensures KeepsTables()
    {
      var i := 0;
      while i < |ps|
        invariant 0 <= i <= |ps|
        invariant space == old(space) + FlatMap(PropertyVisits(ps, root, i), CreatedOf)
        invariant readableItems == old(readableItems) + FlatMap(PropertyVisits(ps, root, i), ReadableOf)
        invariant writableVariables == old(writableVariables) + FlatMap(PropertyVisits(ps, root, i), WritableOf)
        invariant KeepsTables()
      {
        PopulateProperty(ps[i], root);
        PropertyExtends(ps, root, i, old(space), CreatedOf);
        PropertyExtends(ps, root, i, old(readableItems), ReadableOf);
        PropertyExtends(ps, root, i, old(writableVariables), WritableOf);
        i := i + 1;
      }
    }

    /** One round of the properties loop of `_rec_populate`. */
    method PopulateProperty(p: TragenProperty, root: Handle)
      modifies this
      ensures space == old(space) + CreatedOf(PropertyVisit(p, ChildOf(root, p.namespace, p.name)))
      ensures readableItems == old(readableItems) + ReadableOf(PropertyVisit(p, ChildOf(root, p.namespace, p.name)))
      ensures writableVariables == old(writableVariables) + WritableOf(PropertyVisit(p, ChildOf(root, p.namespace, p.name)))
      ensures KeepsTables()
    {
      var tmp := ChildOf(root, p.namespace, p.name);
      space := space + [Created(tmp, VariableKind, p.value, false)];
      readableItems := readableItems + [p.name];
      if p.isWritable {
        // tmp.set_writable(prt.name): the name is taken for the `writable` flag
        space := space[|space| - 1 := Created(tmp, VariableKind, p.value, p.name != "")];
      }
    }

    /** `populate_ns(data_nodes)` without `by_xml`: the graph is hung off the root and Objects nodes. */
    method PopulateNs(g: Level)
      modifies this
      ensures rootNode == Some(RootNode) && objects == Some(ObjectsNode)
      ensures space == old(space) + FlatMap(Visits(g, RootNode, ObjectsNode), CreatedOf)
      ensures readableItems == old(readableItems) + FlatMap(Visits(g, RootNode, ObjectsNode), ReadableOf)
      ensures writableVariables == old(writableVariables) + FlatMap(Visits(g, RootNode, ObjectsNode), WritableOf)
      ensures notifyingEvents == old(notifyingEvents) && varUpdaters == old(varUpdaters) && notifiers == old(notifiers)
    {
      rootNode := Some(RootNode);
      objects := Some(ObjectsNode);
      RecPopulate(g, RootNode, ObjectsNode);
    }

    // ------------------------------------------------------------ create_notifying_events

    /** `create_notifying_events(root, objects, lv)`: the companion nodes and the table entry of every regularly updated variable. */
    method CreateNotifyingEvents(lv: Level, root: Handle, objects: Handle)
      modifies this
      ensures space == old(space) + FlatMap(Visits(lv, root, objects), NotifNodesOf)
      ensures notifyingEvents == Assign(old(notifyingEvents), FlatMap(Visits(lv, root, objects), NotifEntryOf))
      ensures KeepsLists()
      decreases lv, 2
    {
      NotifyFolders(lv, root);
      NotifyObjects(lv.objects, objects);
      NotifyVariables(lv.variables, root);
      // the walk has no loop over properties, which add nothing here
      PropertiesAddNothing(lv.properties, root, |lv.properties|, NotifNodesOf);
      PropertiesAddNothing(lv.properties, root, |lv.properties|, NotifEntryOf);
      PopulateJoin(lv, root, objects, old(space), NotifNodesOf);
      NotifyJoin(lv, root, objects, old(notifyingEvents));
    }

    /** The three loops of `create_notifying_events`, one after the other, assign the entries of the whole walk. */
    static lemma NotifyJoin(lv: Level, root: Handle, objects: Handle, events0: map<string, NotifInfo>)
      ensures var a := FlatMap(FolderVisits(lv, root, |lv.folders|), NotifEntryOf);
              var b := FlatMap(ObjectVisits(lv.objects, objects, |lv.objects|), NotifEntryOf);
              var c := FlatMap(VariableVisits(lv.variables, root, |lv.variables|), NotifEntryOf);
              Assign(Assign(Assign(events0, a), b), c) == Assign(events0, FlatMap(Visits(lv, root, objects), NotifEntryOf))
    {
      var a := FlatMap(FolderVisits(lv, root, |lv.folders|), NotifEntryOf);
      var b := FlatMap(ObjectVisits(lv.objects, objects, |lv.objects|), NotifEntryOf);
      var c := FlatMap(VariableVisits(lv.variables, root, |lv.variables|), NotifEntryOf);
      VisitsSplit(lv, root, objects, NotifEntryOf);
      PropertiesAddNothing(lv.properties, root, |lv.properties|, NotifEntryOf);
      AssignAppend(events0, a, b);
      AssignAppend(events0, a + b, c);
      assert Assign(Assign(Assign(events0, a), b), c) == Assign(Assign(events0, a + b), c);
      assert Assign(Assign(events0, a + b), c) == Assign(events0, a + b + c);
      assert FlatMap(Visits(lv, root, objects), NotifEntryOf) == a + b + c;
    }

    method NotifyFolders(lv: Level, root: Handle)
      modifies this
      ensures space == old(space) + FlatMap(FolderVisits(lv, root, |lv.folders|), NotifNodesOf)
      ensures notifyingEvents == Assign(old(notifyingEvents), FlatMap(FolderVisits(lv, root, |lv.folders|), NotifEntryOf))
      ensures KeepsLists()
      decreases lv, 1
    {
      var i := 0;
      while i < |lv.folders|
        invariant 0 <= i <= |lv.folders|
        invariant space == old(space) + FlatMap(FolderVisits(lv, root, i), NotifNodesOf)
        invariant notifyingEvents == Assign(old(notifyingEvents), FlatMap(FolderVisits(lv, root, i), NotifEntryOf))
        invariant KeepsLists()
      {
        NotifyFolder(lv, root, i);
        FolderExtends(lv, root, i, old(space), NotifNodesOf);
        FolderAssigns(lv, root, i, old(notifyingEvents), NotifEntryOf);
        i := i + 1;
      }
    }

    /** One round of the folders loop of `create_notifying_events`: the walk of the folder's contents. */
    method NotifyFolder(lv: Level, root: Handle, i: nat)
      requires i < |lv.folders|
      modifies this
      ensures var e := lv.folders[i];
              var h := ChildOf(root, e.folder.namespace, e.folder.name);
              space == old(space) + (NotifNodesOf(FolderVisit(e.folder, h)) + FlatMap(Visits(e.content, h, h), NotifNodesOf))
              && notifyingEvents == Assign(old(notifyingEvents), NotifEntryOf(FolderVisit(e.folder, h)) + FlatMap(Visits(e.content, h, h), NotifEntryOf))
      ensures KeepsLists()
      decreases lv, 0
    {
      var e := lv.folders[i];
      var folderNode := ChildOf(root, e.folder.namespace, e.folder.name);
      CreateNotifyingEvents(e.content, folderNode, folderNode);
      assert NotifEntryOf(FolderVisit(e.folder, folderNode)) + FlatMap(Visits(e.content, folderNode, folderNode), NotifEntryOf)
             == FlatMap(Visits(e.content, folderNode, folderNode), NotifEntryOf);
    }

    method NotifyObjects(os: seq<ObjectEntry>, objects: Handle)
      modifies this
      ensures space == old(space) + FlatMap(ObjectVisits(os, objects, |os|), NotifNodesOf)
      ensures notifyingEvents == Assign(old(notifyingEvents), FlatMap(ObjectVisits(os, objects, |os|), NotifEntryOf))
      ensures KeepsLists()
    {
      var i := 0;
      while i < |os|
        invariant 0 <= i <= |os|
        invariant space == old(space) + FlatMap(ObjectVisits(os, objects, i), NotifNodesOf)
        invariant notifyingEvents == Assign(old(notifyingEvents), FlatMap(ObjectVisits(os, objects, i), NotifEntryOf))
        invariant KeepsLists()
      {
        NotifyObject(os[i], objects);
        ObjectExtends(os, objects, i, old(space), NotifNodesOf);
        ObjectAssigns(os, objects, i, old(notifyingEvents), NotifEntryOf);
        i := i + 1;
      }
    }

    /** One round of the objects loop of `create_notifying_events`: the walk of the object's variables. */
    method NotifyObject(e: ObjectEntry, objects: Handle)
      modifies this
      ensures var h := ChildOf(objects, e.obj.namespace, e.obj.name);
              space == old(space) + (NotifNodesOf(ObjectVisit(e.obj, h)) + FlatMap(ContentVisits(e.content, h), NotifNodesOf))
              && notifyingEvents == Assign(old(notifyingEvents), NotifEntryOf(ObjectVisit(e.obj, h)) + FlatMap(ContentVisits(e.content, h), NotifEntryOf))
      ensures KeepsLists()
    {
      var objNode := ChildOf(objects, e.obj.namespace, e.obj.name);
      NotifyVariables(e.content.variables, objNode);
      ContentIsVariables(e.obj, e.content, objNode, NotifNodesOf);
      ContentIsVariables(e.obj, e.content, objNode, NotifEntryOf);
    }

    method NotifyVariables(vs: seq<TragenVariable>, root: Handle)
      modifies this
      ensures space == old(space) + FlatMap(VariableVisits(vs, root, |vs|), NotifNodesOf)
      ensures notifyingEvents == Assign(old(notifyingEvents), FlatMap(VariableVisits(vs, root, |vs|), NotifEntryOf))
      ensures KeepsLists()
    {
      var i := 0;
      while i < |vs|
        invariant 0 <= i <= |vs|
        invariant space == old(space) + FlatMap(VariableVisits(vs, root, i), NotifNodesOf)
        invariant notifyingEvents == Assign(old(notifyingEvents), FlatMap(VariableVisits(vs, root, i), NotifEntryOf))
        invariant KeepsLists()
      {
        NotifyVariable(vs[i], root);
        VariableExtends(vs, root, i, old(space), NotifNodesOf);
        VariableAssigns(vs, root, i, old(notifyingEvents), NotifEntryOf);
        i := i + 1;
      }
    }

    /** One round of the variables loop of `create_notifying_events`. */
    method NotifyVariable(x: TragenVariable, root: Handle)
      modifies this
      ensures space == old(space) + NotifNodesOf(VariableVisit(x, ChildOf(root, x.namespace, x.name)))
      ensures notifyingEvents == Assign(old(notifyingEvents), NotifEntryOf(VariableVisit(x, ChildOf(root, x.namespace, x.name))))
      ensures KeepsLists()
    {
      if x.isRegUd {
        var varNode := ChildOf(root, x.namespace, x.name);
        var evObj := ChildOf(ObjectsNode, 2, x.name + "_NotifObject");
        space := space + [Created(evObj, ObjectKind, PyNone, false)];
        var evType := ChildOf(BaseEventType, 2, x.name + "_NotifEvent");
        space := space + [Created(evType, EventTypeKind, PyNone, false)];
        var evGen := EventGenerator(evType, evObj);
        notifyingEvents := notifyingEvents[x.name := NotifInfo(varNode, x, evGen)];
        assert [(x.name, NotifInfo(varNode, x, evGen))][..0] == [];
      }
    }

    // ------------------------------------------------------------ set_updaters

    /** `set_updaters(g)`: an updater for every irregular and every regular variable, in walk order. */
    method SetUpdaters(g: Level) returns (us: seq<VariableNodeValue>)
      ensures Configs(us) == FlatMap(Visits(g, RootNode, ObjectsNode), UpdatersOf)
    {
      us := RecSetUpdater(g, RootNode, ObjectsNode);
    }

    static method RecSetUpdater(lv: Level, root: Handle, objects: Handle) returns (us: seq<VariableNodeValue>)
      ensures Configs(us) == FlatMap(Visits(lv, root, objects), UpdatersOf)
      decreases lv, 2
    {
      var a := UpdaterFolders(lv, root);
      var b := UpdaterObjects(lv.objects, objects);
      var c := UpdaterVariables(lv.variables, root);
      PropertiesAddNothing(lv.properties, root, |lv.properties|, UpdatersOf);
      VisitsSplit(lv, root, objects, UpdatersOf);
      ConfigsAppend(a, b);
      ConfigsAppend(a + b, c);
      us := a + b + c;
    }

    static method UpdaterFolders(lv: Level, root: Handle) returns (us: seq<VariableNodeValue>)
      ensures Configs(us) == FlatMap(FolderVisits(lv, root, |lv.folders|), UpdatersOf)
      decreases lv, 1
    {
      us := [];
      var i := 0;
      while i < |lv.folders|
        invariant 0 <= i <= |lv.folders|
        invariant Configs(us) == FlatMap(FolderVisits(lv, root, i), UpdatersOf)
      {
        var sub := UpdaterFolder(lv, root, i);
        FolderStep(lv, root, i, UpdatersOf);
        ConfigsAppend(us, sub);
        us := us + sub;
        i := i + 1;
      }
    }

    /** One round of the folders loop of `rec_setupdater`: the walk of the folder's contents. */
    static method UpdaterFolder(lv: Level, root: Handle, i: nat) returns (us: seq<VariableNodeValue>)
      requires i < |lv.folders|
      ensures var e := lv.folders[i];
              var h := ChildOf(root, e.folder.namespace, e.folder.name);
              Configs(us) == UpdatersOf(FolderVisit(e.folder, h)) + FlatMap(Visits(e.content, h, h), UpdatersOf)
      decreases lv, 0
    {
      var e := lv.folders[i];
      var folderNode := ChildOf(root, e.folder.namespace, e.folder.name);
      us := RecSetUpdater(e.content, folderNode, folderNode);
    }

    static method UpdaterObjects(os: seq<ObjectEntry>, objects: Handle) returns (us: seq<VariableNodeValue>)
      ensures Configs(us) == FlatMap(ObjectVisits(os, objects, |os|), UpdatersOf)
    {
      us := [];
      var i := 0;
      while i < |os|
        invariant 0 <= i <= |os|
        invariant Configs(us) == FlatMap(ObjectVisits(os, objects, i), UpdatersOf)
      {
        var sub := UpdaterObject(os[i], objects);
        ObjectStep(os, objects, i, UpdatersOf);
        ConfigsAppend(us, sub);
        us := us + sub;
        i := i + 1;
      }
    }

    /** One round of the objects loop of `rec_setupdater`: the walk of the object's variables. */
    static method UpdaterObject(e: ObjectEntry, objects: Handle) returns (us: seq<VariableNodeValue>)
      ensures var h := ChildOf(objects, e.obj.namespace, e.obj.name);
              Configs(us) == UpdatersOf(ObjectVisit(e.obj, h)) + FlatMap(ContentVisits(e.content, h), UpdatersOf)
    {
      var objNode := ChildOf(objects, e.obj.namespace, e.obj.name);
      us := UpdaterVariables(e.content.variables, objNode);
      ContentIsVariables(e.obj, e.content, objNode, UpdatersOf);
    }

    static method UpdaterVariables(vs: seq<TragenVariable>, root: Handle) returns (us: seq<VariableNodeValue>)
      ensures Configs(us) == FlatMap(VariableVisits(vs, root, |vs|), UpdatersOf)
    {
      us := [];
      var i := 0;
      while i < |vs|
        invariant 0 <= i <= |vs|
        invariant Configs(us) == FlatMap(VariableVisits(vs, root, i), UpdatersOf)
      {
        var added := UpdaterVariable(vs[i], root);
        VariableStep(vs, root, i, UpdatersOf);
        ConfigsAppend(us, added);
        us := us + added;
        i := i + 1;
      }
    }

    /** One round of the variables loop of `rec_setupdater`. */
    static method UpdaterVariable(x: TragenVariable, root: Handle) returns (added: seq<VariableNodeValue>)
      ensures Configs(added) == UpdatersOf(VariableVisit(x, ChildOf(root, x.namespace, x.name)))
    {
      added := [];
      if x.isIrregUd {
        var varNode := ChildOf(root, x.namespace, x.name);
        var u := new VariableNodeValue(varNode, false, IrregularPeriod, DefaultValSd, DefaultPdSd);
        ConfigsAppend(added, [u]);
        ConfigsSingle(u);
        added := added + [u];
      }
      if x.isRegUd {
        var varNode := ChildOf(root, x.namespace, x.name);
        var u := new VariableNodeValue(varNode, true, DefaultPeriod, DefaultValSd, DefaultPdSd);
        ConfigsAppend(added, [u]);
        ConfigsSingle(u);
        added := added + [u];
      }
    }

    // ------------------------------------------------------------ set_notifiers

    /** `set_notifiers()`, with `valueOf` giving the value each node holds at that moment. */
    method SetNotifiers(valueOf: Handle -> PyValue) returns (r: Result<seq<AsynchronousNotfication>, ServerError>)
      ensures r.Err? <==> exists k :: k in notifyingEvents && Faulty(notifyingEvents[k], valueOf)
      ensures r.Err? ==> r.error == TypeError
      ensures r.Ok? ==> |r.value| == |notifyingEvents|
      ensures r.Ok? ==> forall i :: 0 <= i < |r.value| ==> fresh(r.value[i])
      ensures r.Ok? ==> forall i :: 0 <= i < |r.value| ==>
                r.value[i].varName in notifyingEvents && NotifiesFor(r.value[i], notifyingEvents[r.value[i].varName], valueOf)
      ensures r.Ok? ==> forall i, j :: 0 <= i < j < |r.value| ==> r.value[i].varName != r.value[j].varName
      ensures r.Ok? ==> forall k :: k in notifyingEvents ==> exists i :: 0 <= i < |r.value| && r.value[i].varName == k
    {
      var ks, ns, fault := BuildNotifiers(notifyingEvents, valueOf);
      if fault {
        return Err(TypeError);
      }
      forall i, j | 0 <= i < j < |ns| ensures ns[i].varName != ns[j].varName {
        assert ns[i].varName == ks[i] && ns[j].varName == ks[j];
      }
      forall k | k in notifyingEvents ensures exists i :: 0 <= i < |ns| && ns[i].varName == k {
        var i :| 0 <= i < |ks| && ks[i] == k;
        assert ns[i].varName == k;
      }
      r := Ok(ns);
    }

    /** The last steps of `init`: an independent server stores its updater and notifier rosters. */
    method StoreRosters(g: Level, valueOf: Handle -> PyValue) returns (r: Outcome<ServerError>)
      modifies this
      ensures !independant ==> r.Pass? && varUpdaters == old(varUpdaters) && notifiers == old(notifiers)
      ensures independant ==> varUpdaters.Some? && Configs(varUpdaters.value) == FlatMap(Visits(g, RootNode, ObjectsNode), UpdatersOf)
      ensures independant ==> (r.Fail? <==> exists k :: k in notifyingEvents && Faulty(notifyingEvents[k], valueOf))
      ensures independant && r.Pass? ==> notifiers.Some? && |notifiers.value| == |notifyingEvents|
      ensures independant && r.Pass? ==>
                forall i :: 0 <= i < |notifiers.value| ==>
                  notifiers.value[i].varName in notifyingEvents
                  && NotifiesFor(notifiers.value[i], notifyingEvents[notifiers.value[i].varName], valueOf)
      ensures independant && r.Pass? ==>
                forall k :: k in notifyingEvents ==> exists i :: 0 <= i < |notifiers.value| && notifiers.value[i].varName == k
      ensures independant && r.Pass? ==>
                forall i, j :: 0 <= i < j < |notifiers.value| ==> notifiers.value[i].varName != notifiers.value[j].varName
      ensures r.Fail? ==> notifiers == old(notifiers)
      ensures rootNode == old(rootNode) && objects == old(objects)
      ensures space == old(space) && notifyingEvents == old(notifyingEvents)
      ensures readableItems == old(readableItems) && writableVariables == old(writableVariables)
    {
      if !independant {
        return Pass;
      }
      var us := SetUpdaters(g);
      varUpdaters := Some(us);
      var ns := SetNotifiers(valueOf);
      if ns.Err? {
        return Fail(ns.error);
      }
      notifiers := Some(ns.value);
      r := Pass;
    }

    /**
     * `init(data_nodes)` without `by_xml`: the address space gets one node per visit, then the
     * companion nodes of every regularly updated variable; an independent server then stores
     * its rosters, and `set_notifiers` raising stops `init` before the server starts. With the
     * default `data_nodes=None`, `populate_ns` records the root and objects nodes and then raises
     * `AttributeError` on `None._graph`, before anything is added.
     */
    method Init(data: Option<Level>, valueOf: Handle -> PyValue) returns (r: Outcome<ServerError>)
      modifies this
      ensures rootNode == Some(RootNode) && objects == Some(ObjectsNode)
      ensures data.None? ==> r == Fail(AttributeError)
      ensures data.None? ==> space == old(space) && readableItems == old(readableItems)
                             && writableVariables == old(writableVariables) && notifyingEvents == old(notifyingEvents)
                             && varUpdaters == old(varUpdaters)
      ensures data.Some? ==>
                space == old(space) + FlatMap(Visits(data.value, RootNode, ObjectsNode), CreatedOf)
                                    + FlatMap(Visits(data.value, RootNode, ObjectsNode), NotifNodesOf)
      ensures data.Some? ==>
                readableItems == old(readableItems) + FlatMap(Visits(data.value, RootNode, ObjectsNode), ReadableOf)
      ensures data.Some? ==>
                writableVariables == old(writableVariables) + FlatMap(Visits(data.value, RootNode, ObjectsNode), WritableOf)
      ensures data.Some? ==>
                notifyingEvents == Assign(old(notifyingEvents), FlatMap(Visits(data.value, RootNode, ObjectsNode), NotifEntryOf))
      ensures data.Some? && !independant ==> r.Pass? && varUpdaters == old(varUpdaters) && notifiers == old(notifiers)
      ensures data.Some? && independant ==>
                varUpdaters.Some? && Configs(varUpdaters.value) == FlatMap(Visits(data.value, RootNode, ObjectsNode), UpdatersOf)
      ensures data.Some? && independant ==> (r.Fail? <==> exists k :: k in notifyingEvents && Faulty(notifyingEvents[k], valueOf))
      ensures data.Some? && independant && r.Pass? ==> notifiers.Some? && |notifiers.value| == |notifyingEvents|
      ensures data.Some? && independant && r.Pass? ==>
                forall i :: 0 <= i < |notifiers.value| ==>
                  notifiers.value[i].varName in notifyingEvents
                  && NotifiesFor(notifiers.value[i], notifyingEvents[notifiers.value[i].varName], valueOf)
      ensures data.Some? && independant && r.Pass? ==>
                forall k :: k in notifyingEvents ==> exists i :: 0 <= i < |notifiers.value| && notifiers.value[i].varName == k
      ensures data.Some? && independant && r.Pass? ==>
                forall i, j :: 0 <= i < j < |notifiers.value| ==> notifiers.value[i].varName != notifiers.value[j].varName
      ensures r.Fail? ==> notifiers == old(notifiers)
    {
      if data.None? {
        rootNode := Some(RootNode);
        objects := Some(ObjectsNode);
        return Fail(AttributeError);
      }
      var g := data.value;
      PopulateNs(g);
      CreateNotifyingEvents(g, RootNode, ObjectsNode);
      r := StoreRosters(g, valueOf);
    }
  }


  /** `ServerTragen(...)`: without `by_uri`, the constructor reads an unbound name and raises. */
  method NewServer(srvUri: string, name: Option<string>, independant: bool, byUri: bool)
    returns (r: Result<ServerTragen, ServerError>)
    ensures r.Err? <==> !byUri
    ensures r.Err? ==> r.error == NameError
    ensures r.Ok? ==> fresh(r.value) && r.value.uri == srvUri && r.value.name == name
                      && r.value.independant == independant && r.value.space == []
                      && r.value.readableItems == [] && r.value.writableVariables == []
                      && r.value.notifyingEvents == map[]
  {
    if !byUri {
      return Err(NameError);
    }
    var s := new ServerTragen(srvUri, name, independant);
    r := Ok(s);
  }
}
