/**
 * The mobile app's SimpleEventBus: a map from event name to the set of its
 * handlers (a JavaScript Set, so in insertion order and without
 * repetition). A handler is named by a number; `once` registers a new
 * wrapper closure, told apart from every other by a serial number.
 *
 * A handler's own work is not modelled beyond whether it throws.
 */
module EventBus {

  /** A registered handler: one passed to `on`, or the wrapper `once` creates around one. */
  datatype Handler = Direct(id: nat) | OnceWrap(serial: nat, target: nat)

  /** The handler that finally runs. */
  function Target(h: Handler): nat {
    match h
    case Direct(id) => id
    case OnceWrap(_, t) => t
  }

  /** One invocation during `emit`: which handler ran, whether it threw, and whether it was still registered then. */
  datatype Call = Call(target: nat, threw: bool, registered: bool)

  type Listeners = map<string, seq<Handler>>

  predicate NoDup(s: seq<Handler>) {
    forall i, j :: 0 <= i < j < |s| ==> s[i] != s[j]
  }

  /** The handlers of an event; an absent key has none. */
  function Handlers(l: Listeners, e: string): seq<Handler> {
    if e in l then l[e] else []
  }

  /** Set `add`: a handler already present stays where it is. */
  function Add(s: seq<Handler>, h: Handler): seq<Handler> {
    if h in s then s else s + [h]
  }

  /** Set `delete`. */
  function Without(s: seq<Handler>, h: Handler): (r: seq<Handler>)
    ensures forall x :: x in r <==> x in s && x != h
  {
    if s == [] then [] else (if s[0] == h then [] else [s[0]]) + Without(s[1..], h)
  }

  /** Only the handlers passed to `on`, in order. */
  function Directs(s: seq<Handler>): seq<Handler> {
    if s == [] then []
    else Directs(s[..|s| - 1]) + (if s[|s| - 1].Direct? then [s[|s| - 1]] else [])
  }

  /** The map with `e` holding `s`, or without `e` when `s` is empty. */
  function Store(l: Listeners, e: string, s: seq<Handler>): Listeners {
    if s == [] then l - {e} else l[e := s]
  }

  function AfterOn(l: Listeners, e: string, h: Handler): Listeners {
    l[e := Add(Handlers(l, e), h)]
  }

  function AfterOff(l: Listeners, e: string, h: Handler): Listeners {
    if e in l then Store(l, e, Without(l[e], h)) else l
  }

  /** What `emit` leaves: every `once` wrapper of the event gone. */
  function AfterEmit(l: Listeners, e: string): Listeners {
    if e in l then Store(l, e, Directs(l[e])) else l
  }

  /** The invocations of `emit` over a snapshot of the handlers. */
  function CallsOf(s: seq<Handler>, throws: set<nat>): (r: seq<Call>)
    ensures |r| == |s|
  {
    seq(|s|, i requires 0 <= i < |s| => Call(Target(s[i]), Target(s[i]) in throws, s[i].Direct?))
  }

  lemma {:induction false} DirectsMembers(s: seq<Handler>)
    ensures forall x :: x in Directs(s) <==> x in s && x.Direct?
  {
    if s != [] {
      DirectsMembers(s[..|s| - 1]);
      assert s == s[..|s| - 1] + [s[|s| - 1]];
    }
  }

  lemma {:induction false} WithoutNoDup(s: seq<Handler>, h: Handler)
    requires NoDup(s)
    ensures NoDup(Without(s, h))
  {
    if s != [] {
      assert NoDup(s[1..]) by {
        forall i, j | 0 <= i < j < |s[1..]| ensures s[1..][i] != s[1..][j] {
          assert s[1..][i] == s[i + 1] && s[1..][j] == s[j + 1];
        }
      }
      WithoutNoDup(s[1..], h);
      assert s[0] !in s[1..] by {
        forall k | 0 <= k < |s[1..]| ensures s[1..][k] != s[0] { assert s[1..][k] == s[k + 1]; }
      }
    }
  }

  /** Removing the one occurrence of `h` from `a + [h] + b`. */
  lemma {:induction false} WithoutOnce(a: seq<Handler>, h: Handler, b: seq<Handler>)
    requires h !in a && h !in b
    ensures Without(a + [h] + b, h) == a + b
  {
    if a == [] {
      assert (a + [h] + b)[1..] == b;
      WithoutAbsent(b, h);
    } else {
      assert (a + [h] + b)[1..] == a[1..] + [h] + b;
      WithoutOnce(a[1..], h, b);
      assert a + b == [a[0]] + (a[1..] + b);
    }
  }

  lemma {:induction false} WithoutAbsent(s: seq<Handler>, h: Handler)
    requires h !in s
    ensures Without(s, h) == s
  {
    if s != [] {
      WithoutAbsent(s[1..], h);
      assert s == [s[0]] + s[1..];
    }
  }

  class Bus {
    var listeners: Listeners
    /** How many `once` wrappers have been created. */
    var serials: nat

    /** No event is kept without handlers; no handler is in a set twice; every wrapper was created already. */
    ghost predicate Valid()
      reads this
    {
      forall e :: e in listeners ==>
        listeners[e] != [] && NoDup(listeners[e])
        && forall h :: h in listeners[e] && h.OnceWrap? ==> h.serial < serials
    }

    constructor()
      ensures Valid() && listeners == map[] && serials == 0
    {
      listeners := map[];
      serials := 0;
    }

    /** `on(event, handler)`. */
    method On(e: string, h: Handler)
      requires Valid() && (h.OnceWrap? ==> h.serial < serials)
      modifies this
      ensures Valid() && serials == old(serials)
      ensures listeners == AfterOn(old(listeners), e, h)
    {
      var s := if e in listeners then listeners[e] else [];
      if h !in s {
        s := s + [h];
      }
      listeners := listeners[e := s];
    }

    /** `off(event, handler)`: the key goes once its set is empty. */
    method Off(e: string, h: Handler)
      requires Valid()
      modifies this
      ensures Valid() && serials == old(serials)
      ensures listeners == AfterOff(old(listeners), e, h)
    {
      if e in listeners {
        WithoutNoDup(listeners[e], h);
        var s := Without(listeners[e], h);
        if s == [] {
          listeners := listeners - {e};
        } else {
          listeners := listeners[e := s];
        }
      }
    }

    /** `once(event, handler)`: registers a new wrapper, behind every handler already there. */
    method Once(e: string, target: nat)
      requires Valid()
      modifies this
      ensures Valid() && serials == old(serials) + 1
      ensures listeners == AfterOn(old(listeners), e, OnceWrap(old(serials), target))
      ensures Handlers(listeners, e) == Handlers(old(listeners), e) + [OnceWrap(old(serials), target)]
    {
      var wrap := OnceWrap(serials, target);
      serials := serials + 1;
      On(e, wrap);
    }

    /**
     * `emit(event, payload)` where the handlers named in `throws` throw:
     * every handler of the snapshot runs in order, a wrapper unregistering
     * itself before its handler runs.
     */
    method Emit(e: string, throws: set<nat>) returns (calls: seq<Call>)
      requires Valid()
      modifies this
      ensures Valid() && serials == old(serials)
      ensures calls == CallsOf(Handlers(old(listeners), e), throws)
      ensures listeners == AfterEmit(old(listeners), e)
    {
      calls := [];
      if e !in listeners {
        return;
      }
      var snapshot := listeners[e];
      assert NoDup(snapshot);
      var i := 0;
      while i < |snapshot|
        invariant 0 <= i <= |snapshot|
        invariant Valid() && serials == old(serials)
        invariant listeners - {e} == old(listeners) - {e}
        invariant Handlers(listeners, e) == Directs(snapshot[..i]) + snapshot[i..]
        invariant calls == CallsOf(snapshot, throws)[..i]
      {
        var h := snapshot[i];
        SnapshotAt(snapshot, i);
        var registered := Invoke(e, h, Directs(snapshot[..i]), snapshot[i + 1..]);
        CallsPrefix(snapshot, throws, i);
        calls := calls + [Call(Target(h), Target(h) in throws, registered)];
        i := i + 1;
      }
      assert CallsOf(snapshot, throws)[..i] == CallsOf(snapshot, throws);
      EmitDone(listeners, old(listeners), e, snapshot);
    }

    /**
     * Calls handler `h` of event `e`, the one between `d` and `rest`: a `once`
     * wrapper first unregisters itself. Tells whether `h` is still registered
     * when its target runs.
     */
    method Invoke(e: string, h: Handler, ghost d: seq<Handler>, ghost rest: seq<Handler>) returns (registered: bool)
      requires Valid()
      requires Handlers(listeners, e) == d + [h] + rest && h !in d && h !in rest
      modifies this
      ensures Valid() && serials == old(serials)
      ensures listeners == if h.OnceWrap? then AfterOff(old(listeners), e, h) else old(listeners)
      ensures Handlers(listeners, e) == d + (if h.Direct? then [h] else []) + rest
      ensures listeners - {e} == old(listeners) - {e}
      ensures registered <==> h.Direct?
    {
      EmitStep(listeners, e, d, h, rest);
      if h.OnceWrap? {
        Off(e, h);
      }
      registered := e in listeners && h in listeners[e];
    }
  }

  /**
   * One turn of `emit`'s loop over handlers `d + [h] + rest`: a wrapper
   * leaves the handler list before it runs; a handler passed to `on` stays.
   */
  lemma EmitStep(l: Listeners, e: string, d: seq<Handler>, h: Handler, rest: seq<Handler>)
    requires Handlers(l, e) == d + [h] + rest
    requires h !in d && h !in rest
    ensures var next := if h.OnceWrap? then AfterOff(l, e, h) else l;
      Handlers(next, e) == d + (if h.Direct? then [h] else []) + rest
      && next - {e} == l - {e}
      && (h in Handlers(next, e) <==> h.Direct?)
  {
    if h.OnceWrap? {
      WithoutOnce(d, h, rest);
    }
  }

  /** The loop's position `i` splits the snapshot around a handler that occurs nowhere else. */
  lemma SnapshotAt(snapshot: seq<Handler>, i: nat)
    requires i < |snapshot| && NoDup(snapshot)
    ensures var h, rest := snapshot[i], snapshot[i + 1..];
      snapshot[i..] == [h] + rest
      && Directs(snapshot[..i + 1]) == Directs(snapshot[..i]) + (if h.Direct? then [h] else [])
      && h !in Directs(snapshot[..i]) && h !in rest
  {
    DirectsMembers(snapshot[..i]);
    var h, rest := snapshot[i], snapshot[i + 1..];
    assert snapshot[..i + 1][..i] == snapshot[..i];
    forall k | 0 <= k < i ensures snapshot[..i][k] != h { assert snapshot[..i][k] == snapshot[k]; }
    forall k | 0 <= k < |rest| ensures rest[k] != h { assert rest[k] == snapshot[i + 1 + k]; }
  }

  lemma CallsPrefix(s: seq<Handler>, throws: set<nat>, i: nat)
    requires i < |s|
    ensures CallsOf(s, throws)[..i + 1] == CallsOf(s, throws)[..i] + [Call(Target(s[i]), Target(s[i]) in throws, s[i].Direct?)]
  {
    assert CallsOf(s, throws)[i] == Call(Target(s[i]), Target(s[i]) in throws, s[i].Direct?);
  }

  /** When the loop is done, only the handlers passed to `on` are left. */
  lemma EmitDone(l: Listeners, l0: Listeners, e: string, snapshot: seq<Handler>)
    requires e in l0 && l0[e] == snapshot
    requires l - {e} == l0 - {e}
    requires Handlers(l, e) == Directs(snapshot[..|snapshot|]) + snapshot[|snapshot|..]
    requires e in l ==> l[e] != []
    ensures l == AfterEmit(l0, e)
  {
    assert snapshot[..|snapshot|] == snapshot && snapshot[|snapshot|..] == [];
    var r := AfterEmit(l0, e);
    assert r - {e} == l0 - {e};
    assert e in l <==> e in r;
    if e in l {
      assert l[e] == r[e];
    }
    assert forall k :: k in l <==> k in r by {
      forall k ensures k in l <==> k in r {
        if k != e { assert k in l <==> k in l - {e}; assert k in r <==> k in r - {e}; }
      }
    }
    forall k | k in l ensures l[k] == r[k] {
      if k != e { assert l[k] == (l - {e})[k]; assert r[k] == (r - {e})[k]; }
    }
  }

  /** After `on(e, h)`, emitting `e` runs `h`. */
  lemma OnThenEmitCalls(l: Listeners, e: string, id: nat, throws: set<nat>)
    ensures var calls := CallsOf(Handlers(AfterOn(l, e, Direct(id)), e), throws);
      exists k :: 0 <= k < |calls| && calls[k].target == id && calls[k].registered
  {
    var s := Handlers(AfterOn(l, e, Direct(id)), e);
    assert Direct(id) in s;
    var k :| 0 <= k < |s| && s[k] == Direct(id);
    assert CallsOf(s, throws)[k].target == id;
  }

  /** `off` removes the handler, keeps the others, and drops the key once nothing is left. */
  lemma OffSpec(l: Listeners, e: string, h: Handler)
    ensures h !in Handlers(AfterOff(l, e, h), e)
    ensures forall x :: x != h ==> (x in Handlers(AfterOff(l, e, h), e) <==> x in Handlers(l, e))
    ensures e in AfterOff(l, e, h) <==> e in l && Without(l[e], h) != []
    ensures AfterOff(l, e, h) - {e} == l - {e}
  {
  }

  /** Emitting an event nobody listens to runs nothing and changes nothing. */
  lemma EmitUnheard(l: Listeners, e: string, throws: set<nat>)
    requires e !in l
    ensures CallsOf(Handlers(l, e), throws) == [] && AfterEmit(l, e) == l
  {
  }

  /**
   * A `once` wrapper runs at most once: the emit that runs it has already
   * unregistered it, and a later emit runs only the handlers passed to `on`.
   */
  lemma OnceAtMostOnce(l: Listeners, e: string, throws: set<nat>)
    ensures forall k :: 0 <= k < |Handlers(l, e)| && Handlers(l, e)[k].OnceWrap? ==>
      !CallsOf(Handlers(l, e), throws)[k].registered
    ensures forall h :: h in Handlers(AfterEmit(l, e), e) ==> h.Direct?
    ensures forall c :: c in CallsOf(Handlers(AfterEmit(l, e), e), throws) ==> c.registered
  {
    if e in l {
      DirectsMembers(l[e]);
    }
    var s := Handlers(AfterEmit(l, e), e);
    forall c | c in CallsOf(s, throws) ensures c.registered {
      var k :| 0 <= k < |s| && CallsOf(s, throws)[k] == c;
      assert s[k] in s;
    }
  }

  /** Which handlers throw changes nothing about which handlers run, or in what order. */
  lemma ThrowsDoNotStopOthers(s: seq<Handler>, t1: set<nat>, t2: set<nat>)
    ensures |CallsOf(s, t1)| == |CallsOf(s, t2)| == |s|
    ensures forall k :: 0 <= k < |s| ==> CallsOf(s, t1)[k].target == CallsOf(s, t2)[k].target == Target(s[k])
  {
  }
}
