/**
 * Notification: a broadcast channel without lifetime tracking. Callbacks are
 * kept in an id-keyed ordered map; every connect takes the next value of a
 * per-channel counter as its id, and notify calls the callbacks in ascending
 * id order, which is the order in which they were connected.
 *
 * A callback is not run by the model: notify returns, for every connected
 * callback, the invocation it makes (which function or member is called, with
 * which arguments, or which other channel is notified).
 */
module Notifications {

  /** The identity of a std::function passed to connect. */
  type FunctionId = nat
  /** The identity of a member function pointer passed to connect. */
  type MemberId = nat

  /** What each connect overload stores in the observer map. */
  datatype Callback<A> =
    | Function(fn: FunctionId)                               // connect(slot)
    | Member(obj: object, member: MemberId)                  // connect(obj, func)
    | BoundMember(obj: object, member: MemberId, bound: A)   // connect(obj, func, args...)
    | Forward(target: Notification<A>, bound: A)             // connect(notification, args...)

  /** The call a callback makes when the channel is notified. */
  datatype Invocation<A> =
    | FunctionCall(fn: FunctionId, args: A)
    | MemberCall(obj: object, member: MemberId, args: A)
    | ForwardedNotify(target: Notification<A>, args: A)      // target.notify(args...)

  /**
   * Firing one callback with notify's arguments `p`: the bound-argument and the
   * forwarding overloads ignore `p` and use what was captured at connect time.
   */
  function Invoke<A>(cb: Callback<A>, p: A): (r: Invocation<A>)
    ensures r.args == (if cb.BoundMember? || cb.Forward? then cb.bound else p)
    ensures r.FunctionCall? <==> cb.Function?
    ensures r.FunctionCall? ==> r.fn == cb.fn
    ensures r.ForwardedNotify? <==> cb.Forward?
    ensures r.ForwardedNotify? ==> r.target == cb.target
    ensures r.MemberCall? <==> (cb.Member? || cb.BoundMember?)
    ensures r.MemberCall? ==> r.obj == cb.obj && r.member == cb.member
  {
    match cb
    case Function(fn) => FunctionCall(fn, p)
    case Member(obj, member) => MemberCall(obj, member, p)
    case BoundMember(obj, member, bound) => MemberCall(obj, member, bound)
    case Forward(target, bound) => ForwardedNotify(target, bound)
  }

  predicate Increasing(ids: seq<int>) {
    forall i, j :: 0 <= i < j < |ids| ==> ids[i] < ids[j]
  }

  class Notification<A> {
    /** mObservers */
    var observers: map<int, Callback<A>>
    /** mId: the last id handed out */
    var id: nat
    /** Every id connect has returned so far. */
    ghost var issued: set<int>

    ghost predicate Valid()
      reads this
    {
      && observers.Keys <= issued
      && (forall k :: k in issued ==> 1 <= k <= id)
    }

    /** Notification(): counter 0 and no observers. */
    constructor ()
      ensures Valid() && observers == map[] && id == 0 && issued == {}
    {
      observers := map[];
      id := 0;
      issued := {};
    }

    /**
     * connect(slot): pre-increments the counter and inserts under the new id.
     * The id is larger than every id returned before, even ids whose
     * callbacks were disconnected since.
     */
    method Connect(cb: Callback<A>) returns (r: int)
      requires Valid()
      modifies this
      ensures Valid()
      ensures r == old(id) + 1 && id == r && issued == old(issued) + {r}
      ensures forall k :: k in old(issued) ==> k < r
      ensures r !in old(observers) && observers == old(observers)[r := cb]
    {
      id := id + 1;
      // std::map::insert keeps an existing entry; the fresh id never has one
      if id !in observers {
        observers := observers[id := cb];
      }
      issued := issued + {id};
      r := id;
    }

    /** connect(obj, func): a member function called with notify's arguments. */
    method ConnectMember(obj: object, member: MemberId) returns (r: int)
      requires Valid()
      modifies this
      ensures Valid()
      ensures r == old(id) + 1 && id == r && issued == old(issued) + {r}
      ensures r !in old(observers) && observers == old(observers)[r := Member(obj, member)]
    {
      r := Connect(Member(obj, member));
    }

    /** connect(obj, func, args...): a member function called with the arguments given here. */
    method ConnectBound(obj: object, member: MemberId, bound: A) returns (r: int)
      requires Valid()
      modifies this
      ensures Valid()
      ensures r == old(id) + 1 && id == r && issued == old(issued) + {r}
      ensures r !in old(observers) && observers == old(observers)[r := BoundMember(obj, member, bound)]
    {
      r := Connect(BoundMember(obj, member, bound));
    }

    /** connect(notification, args...): notifying this channel notifies `target` with `bound`. */
    method ConnectForward(target: Notification<A>, bound: A) returns (r: int)
      requires Valid()
      modifies this
      ensures Valid()
      ensures r == old(id) + 1 && id == r && issued == old(issued) + {r}
      ensures r !in old(observers) && observers == old(observers)[r := Forward(target, bound)]
    {
      r := Connect(Forward(target, bound));
    }

    /** disconnect(id): erases that entry only; an unknown id changes nothing. */
    method Disconnect(k: int)
      requires Valid()
      modifies this
      ensures Valid()
      ensures observers == old(observers) - {k} && id == old(id) && issued == old(issued)
    {
      observers := observers - {k};
    }

    /** disconnectAll(): empties the map; the counter is kept, so no id is handed out twice. */
    method DisconnectAll()
      requires Valid()
      modifies this
      ensures Valid()
      ensures observers == map[] && id == old(id) && issued == old(issued)
    {
      observers := map[];
    }

    /**
     * notify(p...): every connected callback fires exactly once, in ascending
     * id order. `ids` lists the ids fired, `calls` what each one invoked.
     */
    method Notify(p: A) returns (ids: seq<int>, calls: seq<Invocation<A>>)
      requires Valid()
      ensures Increasing(ids)
      ensures forall i :: 0 <= i < |ids| ==> ids[i] in observers
      ensures forall k :: k in observers ==> k in ids
      ensures |ids| == |observers| && |calls| == |ids|
      ensures forall i :: 0 <= i < |ids| ==> calls[i] == Invoke(observers[ids[i]], p)
    {
      assert forall k :: k in observers ==> k in issued;
      ids, calls := CallInOrder(observers, id, p);
    }
  }

  /**
   * The iteration over an ordered map whose keys all lie in 1..last: a scan of
   * that range visits the keys in ascending order.
   */
  method CallInOrder<A>(observers: map<int, Callback<A>>, last: nat, p: A)
      returns (ids: seq<int>, calls: seq<Invocation<A>>)
    requires forall k :: k in observers ==> 1 <= k <= last
    ensures Increasing(ids)
    ensures forall i :: 0 <= i < |ids| ==> ids[i] in observers
    ensures forall k :: k in observers ==> k in ids
    ensures |ids| == |observers| && |calls| == |ids|
    ensures forall i :: 0 <= i < |ids| ==> calls[i] == Invoke(observers[ids[i]], p)
  {
    ids, calls := [], [];
    var k := 1;
    ghost var seen: set<int> := {};
    while k <= last
      invariant 1 <= k <= last + 1
      invariant forall j :: j in seen <==> j in observers && j < k
      invariant |seen| == |ids|
      invariant Increasing(ids)
      invariant forall i :: 0 <= i < |ids| ==> ids[i] in observers && ids[i] < k
      invariant forall j :: j in observers && j < k ==> j in ids
      invariant |calls| == |ids|
      invariant forall i :: 0 <= i < |ids| ==> calls[i] == Invoke(observers[ids[i]], p)
    {
      if k in observers {
        assert k !in seen;
        seen := seen + {k};
        ids := ids + [k];
        calls := calls + [Invoke(observers[k], p)];
      }
      k := k + 1;
    }
    assert forall j :: j in seen <==> j in observers.Keys;
    assert seen == observers.Keys;
  }

  /** Two callbacks connected one after the other fire in that order. */
  method RegistrationOrder<A>(n: Notification<A>, first: Callback<A>, second: Callback<A>, p: A)
      returns (a: int, b: int, ids: seq<int>, calls: seq<Invocation<A>>)
    requires n.Valid()
    modifies n
    ensures a < b && |calls| == |ids|
    ensures exists i, j :: 0 <= i < j < |ids| && ids[i] == a && ids[j] == b
    ensures forall i :: 0 <= i < |ids| && ids[i] == a ==> calls[i] == Invoke(first, p)
    ensures forall i :: 0 <= i < |ids| && ids[i] == b ==> calls[i] == Invoke(second, p)
  {
    a := n.Connect(first);
    b := n.Connect(second);
    assert a in n.observers && b in n.observers;
    ids, calls := n.Notify(p);
    assert a in ids && b in ids;
    var i :| 0 <= i < |ids| && ids[i] == a;
    var j :| 0 <= j < |ids| && ids[j] == b;
    assert i < j;
  }

  /** A fresh channel hands out 1 first; after disconnectAll the next id is still new. */
  method FreshIds<A>(cb: Callback<A>) returns (first: int, again: int)
    ensures first == 1 && again == 2
  {
    var n := new Notification<A>();
    first := n.Connect(cb);
    n.DisconnectAll();
    again := n.Connect(cb);
  }

  /** Notifying a channel with a forwarding callback notifies the target with the bound arguments. */
  method ForwardingNotifiesTarget<A>(target: Notification<A>, bound: A, p: A)
      returns (calls: seq<Invocation<A>>)
    ensures calls == [ForwardedNotify(target, bound)]
  {
    var n := new Notification<A>();
    var _ := n.ConnectForward(target, bound);
    var ids;
    ids, calls := n.Notify(p);
    assert ids == [1];
  }
}
