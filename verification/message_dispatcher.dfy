/**
 * The in-process messaging of the prediction service: a dispatcher of named
 * events to lists of listeners, the `Telegram` message object, and the
 * dispatcher of telegrams to named receivers. Callbacks are opaque values;
 * calling one appends an entry to a log, and whether the call raises is
 * given by a parameter, since every call site catches what it raises.
 */
module MessageDispatch {

  import opened Wrappers

  /** `EventNames`. */
  const Complete := "COMPLETE"
  const Connected := "CONNECTED"
  const Disconnected := "DISCONNECTED"
  const Error := "ERROR"
  const Terminated := "TERMINATED"

  /** One call of a listener: the callback, the parameter it was given, and whether it raised. */
  datatype Call<C, P> = Call(callback: C, param: P, raised: bool)

  /** `list.remove` refuses a value that is not in the list. */
  datatype RemoveError = ValueError

  /** The listeners registered for an event, none for an event never seen. */
  function Registered<C>(m: map<string, seq<C>>, e: string): (ls: seq<C>)
    ensures e !in m ==> ls == []
    ensures e in m ==> ls == m[e]
  {
    if e in m then m[e] else []
  }

  /** The calls `dispatchEvent` makes for listeners `ls`: each one once, in order, whether or not earlier ones raised. */
  function Calls<C, P>(ls: seq<C>, param: P, raises: (C, P) -> bool): (r: seq<Call<C, P>>)
    ensures |r| == |ls|
    ensures forall i :: 0 <= i < |ls| ==> r[i] == Call(ls[i], param, raises(ls[i], param))
  {
    seq(|ls|, i requires 0 <= i < |ls| => Call(ls[i], param, raises(ls[i], param)))
  }

  /** The callbacks of a run of calls. */
  function Callees<C, P>(cs: seq<Call<C, P>>): (r: seq<C>)
    ensures |r| == |cs| && forall i :: 0 <= i < |cs| ==> r[i] == cs[i].callback
  {
    seq(|cs|, i requires 0 <= i < |cs| => cs[i].callback)
  }

  /** A raising listener does not stop the others: the listeners called are the registered ones, in order, whatever raises. */
  lemma CallsIgnoreRaises<C, P>(ls: seq<C>, param: P, r1: (C, P) -> bool, r2: (C, P) -> bool)
    ensures Callees(Calls(ls, param, r1)) == ls
    ensures Callees(Calls(ls, param, r1)) == Callees(Calls(ls, param, r2))
  {
    assert Callees(Calls(ls, param, r1)) == ls;
    assert Callees(Calls(ls, param, r2)) == ls;
  }

  /** The calls of a longer listener list extend those of the shorter one. */
  lemma CallsAppend<C, P>(ls: seq<C>, cb: C, param: P, raises: (C, P) -> bool)
    ensures Calls(ls + [cb], param, raises) == Calls(ls, param, raises) + [Call(cb, param, raises(cb, param))]
  {
  }

  /** The position of the first occurrence of `x`. */
  function FirstIndex<C(==)>(l: seq<C>, x: C): (i: nat)
    requires x in l
    ensures i < |l| && l[i] == x && x !in l[..i]
    decreases |l|
  {
    if l[0] == x then 0
    else
      var j := FirstIndex(l[1..], x);
      assert l[..j + 1] == [l[0]] + l[1..][..j];
      j + 1
  }

  /** `ary.remove(callback)`: the list without the first occurrence, or `ValueError` when there is none. */
  function RemoveFirst<C(==)>(l: seq<C>, x: C): (r: Result<seq<C>, RemoveError>)
    ensures r.Err? <==> x !in l
    ensures r.Ok? ==> exists i :: 0 <= i < |l| && l[i] == x && x !in l[..i] && r.value == l[..i] + l[i + 1..]
  {
    if x in l then
      var i := FirstIndex(l, x);
      Ok(l[..i] + l[i + 1..])
    else Err(ValueError)
  }

  /** Removing takes exactly one occurrence of the callback out and keeps all the others. */
  lemma RemoveFirstCount<C>(l: seq<C>, x: C)
    requires x in l
    ensures RemoveFirst(l, x).Ok? && multiset(RemoveFirst(l, x).value) + multiset{x} == multiset(l)
  {
    var i := FirstIndex(l, x);
    assert l == l[..i] + [l[i]] + l[i + 1..];
  }

  /** Removing a callback just added, when it was not registered before, restores the list. */
  lemma AddThenRemove<C>(l: seq<C>, x: C)
    requires x !in l
    ensures RemoveFirst(l + [x], x) == Ok(l)
  {
    var i := FirstIndex(l + [x], x);
    assert i == |l|;
    assert RemoveFirst(l + [x], x) == Ok((l + [x])[..i] + (l + [x])[i + 1..]);
    assert (l + [x])[..i] + (l + [x])[i + 1..] == l + [];
    assert l + [] == l;
    assert (l + [x])[..|l|] == l && (l + [x])[|l| + 1..] == [];
  }

  /**
   * After `addListener(e, cb)` the event's listeners are the old ones followed
   * by `cb`, every other event keeps its own, and a `cb` that was not registered
   * is taken out again by `removeListener(e, cb)`, which restores the old list.
   */
  lemma RegisteredAfterAdd<C>(m: map<string, seq<C>>, e: string, cb: C, other: string)
    ensures var m' := m[e := Registered(m, e) + [cb]];
      Registered(m', e) == Registered(m, e) + [cb]
      && (other != e ==> Registered(m', other) == Registered(m, other))
      && (cb !in Registered(m, e) ==> RemoveFirst(Registered(m', e), cb) == Ok(Registered(m, e)))
  {
    if cb !in Registered(m, e) {
      AddThenRemove(Registered(m, e), cb);
    }
  }

  /** `BaseDispatcher`: a listener list per event name, and the calls made so far. */
  class BaseDispatcher<C(==), P> {
    var listeners: map<string, seq<C>>
    var log: seq<Call<C, P>>

    constructor ()
      ensures listeners == map[] && log == []
    {
      listeners := map[];
      log := [];
    }

    /** `__getListener`: the event's list, or `None` for an unknown event. */
    function GetListener(e: string): (r: Option<seq<C>>)
      reads this
      ensures r.Some? <==> e in listeners
      ensures r.Some? ==> r.value == Registered(listeners, e)
    {
      if e in listeners then Some(listeners[e]) else None
    }

    /** `addListener`: the callback goes last in the event's list, which is created when absent; no other event changes. */
    method AddListener(e: string, callback: C)
      modifies this
      ensures listeners == old(listeners)[e := Registered(old(listeners), e) + [callback]]
      ensures GetListener(e) == Some(Registered(old(listeners), e) + [callback])
      ensures forall other :: other != e ==> GetListener(other) == old(GetListener(other))
      ensures log == old(log)
    {
      if e in listeners {
        listeners := listeners[e := listeners[e] + [callback]];
      } else {
        listeners := listeners[e := []];
        listeners := listeners[e := listeners[e] + [callback]];
      }
    }

    /** `dispatchEvent`: calls the event's listeners once each in order; a raising one is caught and the loop goes on. */
    method DispatchEvent(e: string, param: P, raises: (C, P) -> bool)
      modifies this
      ensures listeners == old(listeners)
      ensures log == old(log) + Calls(Registered(old(listeners), e), param, raises)
    {
      var ls := GetListener(e);
      if ls.Some? {
        var ary := ls.value;
        for i := 0 to |ary|
          invariant listeners == old(listeners)
          invariant log == old(log) + Calls(ary[..i], param, raises)
        {
          var listener := ary[i];
          var raised := raises(listener, param);
          CallsAppend(ary[..i], listener, param, raises);
          assert ary[..i + 1] == ary[..i] + [listener];
          log := log + [Call(listener, param, raised)];
        }
        assert ary[..|ary|] == ary;
      }
    }

    /** `removeListener`: nothing for an unknown event; otherwise the first occurrence goes, or `ValueError` leaves the list as it was. */
    method RemoveListener(e: string, callback: C) returns (err: Option<RemoveError>)
      modifies this
      ensures log == old(log)
      ensures e !in old(listeners) ==> err.None? && listeners == old(listeners)
      ensures e in old(listeners) ==>
                match RemoveFirst(old(listeners)[e], callback)
                case Ok(l) => err.None? && listeners == old(listeners)[e := l]
                case Err(x) => err == Some(x) && listeners == old(listeners)
    {
      err := None;
      if e in listeners {
        var ary := listeners[e];
        match RemoveFirst(ary, callback)
        case Ok(l) =>
          listeners := listeners[e := l];
        case Err(x) =>
          err := Some(x);
      }
    }
  }

  /** What a telegram holds: `event_param` is `None` for the initial empty list, `sender` and `receiver` `None` until set. */
  datatype Message<P, S> = Message(eventName: string, param: Option<P>, sender: Option<S>, receiver: Option<string>)

  /** `Telegram`. */
  class Telegram<P, S> {
    var eventName: string
    var param: Option<P>
    var sender: Option<S>
    var receiver: Option<string>

    constructor ()
      ensures Value() == Message("", None, None, None)
    {
      eventName := "";
      param := None;
      sender := None;
      receiver := None;
    }

    function Value(): Message<P, S>
      reads this
    {
      Message(eventName, param, sender, receiver)
    }

    method SetEventName(v: string)
      modifies this
      ensures Value() == old(Value()).(eventName := v)
    {
      eventName := v;
    }

    method SetParam(v: P)
      modifies this
      ensures Value() == old(Value()).(param := Some(v))
    {
      param := Some(v);
    }

    method SetSender(v: S)
      modifies this
      ensures Value() == old(Value()).(sender := Some(v))
    {
      sender := Some(v);
    }

    method SetReceiver(v: Option<string>)
      modifies this
      ensures Value() == old(Value()).(receiver := v)
    {
      receiver := v;
    }

    /** `Telegram.build`: a new telegram with the four fields exactly as given. */
    static method Build(e: string, param: P, sender: S, receiver: Option<string>) returns (c: Telegram<P, S>)
      ensures fresh(c) && c.Value() == Message(e, Some(param), Some(sender), receiver)
    {
      c := new Telegram();
      c.SetEventName(e);
      c.SetParam(param);
      c.SetSender(sender);
      c.SetReceiver(receiver);
    }
  }

  /** One telegram handed to a client: its name, its callback, the message, and whether the call raised. */
  datatype Delivery<C, P, S> = Delivery(to: string, callback: C, message: Message<P, S>, raised: bool)

  /** The names in a list other than `name`, in order. */
  function Without(names: seq<string>, name: string): (r: seq<string>)
    ensures forall n :: n in r <==> n in names && n != name
    decreases |names|
  {
    if |names| == 0 then []
    else
      var rest := Without(names[1..], name);
      assert forall n :: n in names[1..] ==> n in names;
      if names[0] == name then rest else [names[0]] + rest
  }

  /** No name appears twice. */
  ghost predicate Distinct(names: seq<string>)
  {
    forall i, j :: 0 <= i < j < |names| ==> names[i] != names[j]
  }

  /** Removing a name from a list without repeats leaves a list without repeats. */
  lemma {:induction false} WithoutDistinct(names: seq<string>, name: string)
    requires Distinct(names)
    ensures Distinct(Without(names, name))
    decreases |names|
  {
    if |names| > 0 {
      WithoutDistinct(names[1..], name);
      var rest := Without(names[1..], name);
      if names[0] != name {
        assert names[0] !in names[1..];
        var r := [names[0]] + rest;
        forall i, j | 0 <= i < j < |r| ensures r[i] != r[j] {
          if i == 0 {
            assert r[j] == rest[j - 1] && rest[j - 1] in rest;
            assert rest[j - 1] in names[1..];
            assert r[0] == names[0];
          } else {
            assert r[i] == rest[i - 1] && r[j] == rest[j - 1];
            assert rest[i - 1] != rest[j - 1];
          }
        }
        assert Without(names, name) == r;
      }
    }
  }

  /** Removing a name that is not in the list leaves it as it is. */
  lemma {:induction false} WithoutAbsent(names: seq<string>, name: string)
    requires name !in names
    ensures Without(names, name) == names
    decreases |names|
  {
    if |names| > 0 {
      WithoutAbsent(names[1..], name);
      assert names == [names[0]] + names[1..];
    }
  }

  /** The deliveries of a broadcast to clients `keys`, in key order, each with receiver `None`. */
  function Broadcasts<C, P, S>(keys: seq<string>, clients: map<string, C>, m: Message<P, S>,
                               raises: (C, Message<P, S>) -> bool): (r: seq<Delivery<C, P, S>>)
    requires forall k :: 0 <= k < |keys| ==> keys[k] in clients
    ensures |r| == |keys|
    ensures forall k :: 0 <= k < |keys| ==>
              r[k] == Delivery(keys[k], clients[keys[k]], m, raises(clients[keys[k]], m))
  {
    seq(|keys|, k requires 0 <= k < |keys| => Delivery(keys[k], clients[keys[k]], m, raises(clients[keys[k]], m)))
  }

  /** With distinct keys a broadcast reaches every client exactly once, and nobody else. */
  lemma BroadcastOncePerClient<C, P, S>(keys: seq<string>, clients: map<string, C>, m: Message<P, S>,
                                        raises: (C, Message<P, S>) -> bool)
    requires Distinct(keys)
    requires forall n :: n in clients <==> n in keys
    ensures var r := Broadcasts(keys, clients, m, raises);
            (forall k :: 0 <= k < |r| ==> r[k].to in clients && r[k].callback == clients[r[k].to])
            && forall n :: n in clients ==>
                 exists k :: 0 <= k < |r| && r[k].to == n && forall k' :: 0 <= k' < |r| && r[k'].to == n ==> k' == k
  {
    var r := Broadcasts(keys, clients, m, raises);
    forall n | n in clients
      ensures exists k :: 0 <= k < |r| && r[k].to == n && forall k' :: 0 <= k' < |r| && r[k'].to == n ==> k' == k
    {
      var k :| 0 <= k < |keys| && keys[k] == n;
      assert r[k].to == n;
    }
  }

  /** `MessageDispatcher`: the named clients, kept in the order they registered, and the deliveries made so far. */
  class MessageDispatcher<C, P, S> {
    var order: seq<string>
    var clients: map<string, C>
    var delivered: seq<Delivery<C, P, S>>

    /** The order lists every registered name once. */
    ghost predicate Valid()
      reads this
    {
      Distinct(order) && forall n :: n in clients <==> n in order
    }

    constructor ()
      ensures Valid() && order == [] && clients == map[] && delivered == []
    {
      order := [];
      clients := map[];
      delivered := [];
    }

    /** `register`: a new name goes last; a name already there keeps its callback. */
    method Register(name: string, callback: C)
      requires Valid()
      modifies this
      ensures Valid() && delivered == old(delivered)
      ensures name in old(clients) ==> clients == old(clients) && order == old(order)
      ensures name !in old(clients) ==> clients == old(clients)[name := callback] && order == old(order) + [name]
    {
      if name !in clients {
        clients := clients[name := callback];
        order := order + [name];
      }
    }

    /** `unregister`: only a present name is removed, and the others keep their order. */
    method Unregister(name: string)
      requires Valid()
      modifies this
      ensures Valid() && delivered == old(delivered)
      ensures clients == old(clients) - {name} && order == Without(old(order), name)
    {
      if name in clients {
        WithoutDistinct(order, name);
        clients := clients - {name};
        order := Without(order, name);
      } else {
        WithoutAbsent(order, name);
      }
    }

    /** `send`: a telegram naming the receiver goes to that client only, once; an unknown name gets nothing. */
    method Send(name: string, sender: S, e: string, param: P, raises: (C, Message<P, S>) -> bool)
      modifies this
      ensures clients == old(clients) && order == old(order)
      ensures name !in old(clients) ==> delivered == old(delivered)
      ensures name in old(clients) ==>
                var m := Message(e, Some(param), Some(sender), Some(name));
                delivered == old(delivered) + [Delivery(name, old(clients)[name], m, raises(old(clients)[name], m))]
    {
      if name in clients {
        var telegram := Telegram.Build(e, param, sender, Some(name));
        var m := telegram.Value();
        var raised := raises(clients[name], m);
        delivered := delivered + [Delivery(name, clients[name], m, raised)];
      }
    }

    /** `broadcast`: every client, in key order, gets a telegram with receiver `None`; a raising one does not stop the others. */
    method Broadcast(sender: S, e: string, param: P, raises: (C, Message<P, S>) -> bool)
      requires Valid()
      modifies this
      ensures Valid() && clients == old(clients) && order == old(order)
      ensures delivered == old(delivered) + Broadcasts(order, clients, Message(e, Some(param), Some(sender), None), raises)
    {
      ghost var m := Message(e, Some(param), Some(sender), None);
      for k := 0 to |order|
        invariant clients == old(clients) && order == old(order) && Valid()
        invariant delivered == old(delivered) + Broadcasts(order[..k], clients, m, raises)
      {
        var key := order[k];
        var telegram := Telegram.Build(e, param, sender, None);
        var t := telegram.Value();
        var raised := raises(clients[key], t);
        BroadcastsAppend(order[..k], key, clients, m, raises);
        assert order[..k + 1] == order[..k] + [key];
        delivered := delivered + [Delivery(key, clients[key], t, raised)];
      }
      assert order[..|order|] == order;
    }
  }

  lemma BroadcastsAppend<C, P, S>(keys: seq<string>, key: string, clients: map<string, C>, m: Message<P, S>,
                                  raises: (C, Message<P, S>) -> bool)
    requires forall k :: 0 <= k < |keys| ==> keys[k] in clients
    requires key in clients
    ensures Broadcasts(keys + [key], clients, m, raises)
            == Broadcasts(keys, clients, m, raises) + [Delivery(key, clients[key], m, raises(clients[key], m))]
  {
  }
}
