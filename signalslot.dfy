/**
 * Signal and Slot: a signal keeps the set of slots attached to it, every slot
 * keeps the set of signals it is attached to, and both sides unlink themselves
 * from their peers when they are destroyed, so that no endpoint ever refers to
 * a destroyed peer.
 *
 * The objects are modelled by integer handles in one Registry: `slotsOf` holds
 * each live signal's slot set (Signal::mSlots), `signalsOf` each live slot's
 * signal set (Slot::mSignals). Allocating an object is a method taking a handle
 * that is not in use; destroying it is a method that runs the destructor's loop.
 */
module SignalSlot {

  type SignalId = nat
  type SlotId = nat
  /** The sender object a signal passes to every callback (Signal::mSender). */
  type Sender = nat
  /** The identity of the callable a slot was constructed with (Slot::mCallback). */
  type Callback = nat

  /** The two link tables: mSlots of every live signal, mSignals of every live slot. */
  datatype Links = Links(slotsOf: map<SignalId, set<SlotId>>, signalsOf: map<SlotId, set<SignalId>>)

  /** Signal g holds a pointer to slot k. */
  predicate Linked(l: Links, g: SignalId, k: SlotId) {
    g in l.slotsOf && k in l.slotsOf[g]
  }

  /**
   * The invariant the two classes exist for: every pointer held refers to a live
   * peer, and a signal holds a slot exactly when that slot holds the signal.
   */
  ghost predicate Mirrored(l: Links) {
    && (forall g :: g in l.slotsOf ==> l.slotsOf[g] <= l.signalsOf.Keys)
    && (forall k :: k in l.signalsOf ==> l.signalsOf[k] <= l.slotsOf.Keys)
    && (forall g, k :: g in l.slotsOf && k in l.signalsOf ==> (k in l.slotsOf[g] <==> g in l.signalsOf[k]))
  }

  /** Signal(sender): a new signal with no slots. */
  function AddSignal(l: Links, g: SignalId): (r: Links)
    requires g !in l.slotsOf
    ensures r.slotsOf.Keys == l.slotsOf.Keys + {g} && r.signalsOf.Keys == l.signalsOf.Keys
    ensures g in r.slotsOf && r.slotsOf[g] == {}
    ensures forall g', k :: Linked(r, g', k) <==> Linked(l, g', k)
    ensures Mirrored(l) ==> Mirrored(r)
  {
    Links(l.slotsOf[g := {}], l.signalsOf)
  }

  /** Slot(callback): a new slot attached to no signal. */
  function AddSlot(l: Links, k: SlotId): (r: Links)
    requires k !in l.signalsOf
    ensures r.slotsOf.Keys == l.slotsOf.Keys && r.signalsOf.Keys == l.signalsOf.Keys + {k}
    ensures k in r.signalsOf && r.signalsOf[k] == {}
    ensures forall g, k' :: Linked(r, g, k') <==> Linked(l, g, k')
    ensures Mirrored(l) ==> Mirrored(r)
  {
    Links(l.slotsOf, l.signalsOf[k := {}])
  }

  /** Signal::attach: both std::set inserts. */
  function AttachLinks(l: Links, g: SignalId, k: SlotId): (r: Links)
    requires g in l.slotsOf && k in l.signalsOf
    ensures r.slotsOf.Keys == l.slotsOf.Keys && r.signalsOf.Keys == l.signalsOf.Keys
    ensures Linked(r, g, k) && g in r.signalsOf[k]
    ensures forall g', k' :: Linked(r, g', k') <==> (Linked(l, g', k') || (g' == g && k' == k))
    ensures Mirrored(l) ==> Mirrored(r)
  {
    Links(l.slotsOf[g := l.slotsOf[g] + {k}], l.signalsOf[k := l.signalsOf[k] + {g}])
  }

  /** Signal::detach: both std::set erases. */
  function DetachLinks(l: Links, g: SignalId, k: SlotId): (r: Links)
    requires g in l.slotsOf && k in l.signalsOf
    ensures r.slotsOf.Keys == l.slotsOf.Keys && r.signalsOf.Keys == l.signalsOf.Keys
    ensures !Linked(r, g, k) && g !in r.signalsOf[k]
    ensures forall g', k' :: Linked(r, g', k') <==> (Linked(l, g', k') && !(g' == g && k' == k))
    ensures Mirrored(l) ==> Mirrored(r)
  {
    Links(l.slotsOf[g := l.slotsOf[g] - {k}], l.signalsOf[k := l.signalsOf[k] - {g}])
  }

  /** Attaching a slot that is already attached leaves both sets as they were (both are std::set). */
  lemma AttachIsIdempotent(l: Links, g: SignalId, k: SlotId)
    requires Mirrored(l) && g in l.slotsOf && k in l.signalsOf && Linked(l, g, k)
    ensures AttachLinks(l, g, k) == l
  {
    assert l.slotsOf[g] + {k} == l.slotsOf[g];
    assert l.signalsOf[k] + {g} == l.signalsOf[k];
  }

  /** Detaching a slot that is not attached leaves both sets as they were. */
  lemma DetachUnattachedIsNoOp(l: Links, g: SignalId, k: SlotId)
    requires Mirrored(l) && g in l.slotsOf && k in l.signalsOf && !Linked(l, g, k)
    ensures DetachLinks(l, g, k) == l
  {
    assert l.slotsOf[g] - {k} == l.slotsOf[g];
    assert l.signalsOf[k] - {g} == l.signalsOf[k];
  }

  /** ~Signal: every attached slot erases the signal; then the signal is gone. */
  function RemoveSignal(l: Links, g: SignalId): (r: Links)
    requires g in l.slotsOf
    ensures r.slotsOf.Keys == l.slotsOf.Keys - {g} && r.signalsOf.Keys == l.signalsOf.Keys
    ensures forall k :: k in r.signalsOf ==> g !in r.signalsOf[k]
    ensures forall g', k :: g' != g ==> (Linked(r, g', k) <==> Linked(l, g', k))
    ensures Mirrored(l) ==> Mirrored(r)
  {
    Links(l.slotsOf - {g}, map k | k in l.signalsOf :: l.signalsOf[k] - {g})
  }

  /** ~Slot: every signal the slot is attached to erases the slot; then the slot is gone. */
  function RemoveSlot(l: Links, k: SlotId): (r: Links)
    requires k in l.signalsOf
    ensures r.slotsOf.Keys == l.slotsOf.Keys && r.signalsOf.Keys == l.signalsOf.Keys - {k}
    ensures forall g :: g in r.slotsOf ==> k !in r.slotsOf[g]
    ensures forall g, k' :: k' != k ==> (Linked(r, g, k') <==> Linked(l, g, k'))
    ensures Mirrored(l) ==> Mirrored(r)
  {
    Links(map g | g in l.slotsOf :: l.slotsOf[g] - {k}, l.signalsOf - {k})
  }

  /** One callback invocation made by Signal::notify: mCallback(mSender, args...). */
  datatype Call<A> = Call(slot: SlotId, callback: Callback, sender: Sender, args: A)

  /** The slots whose callbacks appear in a trace of calls. */
  function SlotsCalled<A>(calls: seq<Call<A>>): (s: set<SlotId>)
    ensures forall i :: 0 <= i < |calls| ==> calls[i].slot in s
  {
    if calls == [] then {} else SlotsCalled(calls[..|calls| - 1]) + {calls[|calls| - 1].slot}
  }

  /** No slot is called twice. */
  predicate CalledOnce<A>(calls: seq<Call<A>>) {
    forall i, j :: 0 <= i < j < |calls| ==> calls[i].slot != calls[j].slot
  }

  class Registry {
    var slotsOf: map<SignalId, set<SlotId>>
    var signalsOf: map<SlotId, set<SignalId>>
    var senderOf: map<SignalId, Sender>
    var callbackOf: map<SlotId, Callback>

    function State(): Links
      reads this
    {
      Links(slotsOf, signalsOf)
    }

    ghost predicate Valid()
      reads this
    {
      Mirrored(State()) && senderOf.Keys == slotsOf.Keys && callbackOf.Keys == signalsOf.Keys
    }

    /** No signal and no slot exists yet. */
    constructor ()
      ensures Valid()
      ensures slotsOf == map[] && signalsOf == map[] && senderOf == map[] && callbackOf == map[]
    {
      slotsOf, signalsOf := map[], map[];
      senderOf, callbackOf := map[], map[];
    }

    /** Signal::Signal(sender): the sender is bound for the signal's lifetime. */
    method NewSignal(g: SignalId, sender: Sender)
      requires Valid() && g !in slotsOf
      modifies this
      ensures Valid()
      ensures State() == AddSignal(old(State()), g)
      ensures senderOf == old(senderOf)[g := sender] && callbackOf == old(callbackOf)
    {
      slotsOf := slotsOf[g := {}];
      senderOf := senderOf[g := sender];
    }

    /** Slot::Slot(callback), and Slot::Slot(obj, func) with the bound member as the callable. */
    method NewSlot(k: SlotId, callback: Callback)
      requires Valid() && k !in signalsOf
      modifies this
      ensures Valid()
      ensures State() == AddSlot(old(State()), k)
      ensures senderOf == old(senderOf) && callbackOf == old(callbackOf)[k := callback]
    {
      signalsOf := signalsOf[k := {}];
      callbackOf := callbackOf[k := callback];
    }

    /** Signal::attach */
    method Attach(g: SignalId, k: SlotId)
      requires Valid() && g in slotsOf && k in signalsOf
      modifies this
      ensures Valid()
      ensures State() == AttachLinks(old(State()), g, k)
      ensures senderOf == old(senderOf) && callbackOf == old(callbackOf)
    {
      signalsOf, slotsOf := signalsOf[k := signalsOf[k] + {g}], slotsOf[g := slotsOf[g] + {k}];
    }

    /** Signal::detach */
    method Detach(g: SignalId, k: SlotId)
      requires Valid() && g in slotsOf && k in signalsOf
      modifies this
      ensures Valid()
      ensures State() == DetachLinks(old(State()), g, k)
      ensures senderOf == old(senderOf) && callbackOf == old(callbackOf)
    {
      signalsOf, slotsOf := signalsOf[k := signalsOf[k] - {g}], slotsOf[g := slotsOf[g] - {k}];
    }

    /** Signal::~Signal: walks mSlots and erases itself from each slot's mSignals. */
    method DestroySignal(g: SignalId)
      requires Valid() && g in slotsOf
      modifies this
      ensures Valid()
      ensures State() == RemoveSignal(old(State()), g)
      ensures senderOf == old(senderOf) - {g} && callbackOf == old(callbackOf)
    {
      var todo := slotsOf[g];
      while todo != {}
        invariant todo <= old(slotsOf)[g]
        invariant slotsOf == old(slotsOf) && senderOf == old(senderOf) && callbackOf == old(callbackOf)
        invariant signalsOf.Keys == old(signalsOf).Keys
        invariant forall k :: k in signalsOf ==>
          signalsOf[k] == if k in todo then old(signalsOf)[k] else old(signalsOf)[k] - {g}
        decreases todo
      {
        var k :| k in todo;
        signalsOf := signalsOf[k := signalsOf[k] - {g}];
        todo := todo - {k};
      }
      slotsOf := slotsOf - {g};
      senderOf := senderOf - {g};
      assert State() == RemoveSignal(old(State()), g);
    }

    /** Slot::~Slot: walks mSignals and erases itself from each signal's mSlots. */
    method DestroySlot(k: SlotId)
      requires Valid() && k in signalsOf
      modifies this
      ensures Valid()
      ensures State() == RemoveSlot(old(State()), k)
      ensures senderOf == old(senderOf) && callbackOf == old(callbackOf) - {k}
    {
      var todo := signalsOf[k];
      while todo != {}
        invariant todo <= old(signalsOf)[k]
        invariant signalsOf == old(signalsOf) && senderOf == old(senderOf) && callbackOf == old(callbackOf)
        invariant slotsOf.Keys == old(slotsOf).Keys
        invariant forall g :: g in slotsOf ==>
          slotsOf[g] == if g in todo then old(slotsOf)[g] else old(slotsOf)[g] - {k}
        decreases todo
      {
        var g :| g in todo;
        slotsOf := slotsOf[g := slotsOf[g] - {k}];
        todo := todo - {g};
      }
      signalsOf := signalsOf - {k};
      callbackOf := callbackOf - {k};
      assert State() == RemoveSlot(old(State()), k);
    }

    /**
     * Signal::notify: every slot attached to g has its callback called exactly
     * once, with g's sender and the notify arguments. The order of the calls is
     * that of a std::set of pointers and is left unspecified.
     */
    method Notify<A>(g: SignalId, args: A) returns (calls: seq<Call<A>>)
      requires Valid() && g in slotsOf
      ensures SlotsCalled(calls) == slotsOf[g]
      ensures CalledOnce(calls) && |calls| == |slotsOf[g]|
      ensures forall i :: 0 <= i < |calls| ==>
        && calls[i].slot in callbackOf
        && calls[i] == Call(calls[i].slot, callbackOf[calls[i].slot], senderOf[g], args)
    {
      calls := CallEach(slotsOf[g], callbackOf, senderOf[g], args);
    }
  }

  /** The loop of Signal::notify: one call per slot of the set, in some order. */
  method CallEach<A>(slots: set<SlotId>, callbackOf: map<SlotId, Callback>, sender: Sender, args: A)
      returns (calls: seq<Call<A>>)
    requires slots <= callbackOf.Keys
    ensures SlotsCalled(calls) == slots
    ensures CalledOnce(calls) && |calls| == |slots|
    ensures forall i :: 0 <= i < |calls| ==>
      && calls[i].slot in callbackOf
      && calls[i] == Call(calls[i].slot, callbackOf[calls[i].slot], sender, args)
  {
    var todo := slots;
    calls := [];
    while todo != {}
      invariant todo <= slots
      invariant SlotsCalled(calls) == slots - todo
      invariant CalledOnce(calls) && |calls| + |todo| == |slots|
      invariant forall i :: 0 <= i < |calls| ==>
        && calls[i].slot in callbackOf
        && calls[i] == Call(calls[i].slot, callbackOf[calls[i].slot], sender, args)
      decreases todo
    {
      var k :| k in todo;
      var call := Call(k, callbackOf[k], sender, args);
      assert (calls + [call])[..|calls|] == calls;
      assert SlotsCalled(calls + [call]) == SlotsCalled(calls) + {k};
      assert forall i :: 0 <= i < |calls| ==> calls[i].slot != k;
      calls := calls + [call];
      todo := todo - {k};
    }
  }

  /**
   * Destroying a slot and then notifying any signal: the destroyed slot's
   * callback is never called, and every other slot that was attached is.
   */
  method DestroySlotThenNotify<A>(r: Registry, k: SlotId, g: SignalId, args: A) returns (calls: seq<Call<A>>)
    requires r.Valid() && k in r.signalsOf && g in r.slotsOf
    modifies r
    ensures forall i :: 0 <= i < |calls| ==> calls[i].slot != k
    ensures SlotsCalled(calls) == old(r.slotsOf[g]) - {k}
  {
    r.DestroySlot(k);
    calls := r.Notify(g, args);
  }

  /**
   * Destroying a signal: no slot refers to it any more, and notifying another
   * signal still reaches exactly the slots that were attached to that one.
   */
  method DestroySignalThenNotify<A>(r: Registry, dead: SignalId, g: SignalId, args: A) returns (calls: seq<Call<A>>)
    requires r.Valid() && dead in r.slotsOf && g in r.slotsOf && g != dead
    modifies r
    ensures forall k :: k in r.signalsOf ==> dead !in r.signalsOf[k]
    ensures SlotsCalled(calls) == old(r.slotsOf[g])
  {
    r.DestroySignal(dead);
    calls := r.Notify(g, args);
  }

  /** One slot attached to two signals at once, each signal also holding another slot. */
  method SharedSlot(r: Registry, g1: SignalId, g2: SignalId, k: SlotId, other: SlotId)
    requires r.Valid() && g1 in r.slotsOf && g2 in r.slotsOf && k in r.signalsOf && other in r.signalsOf
    requires g1 != g2 && k != other
    modifies r
    ensures r.Valid() && r.slotsOf.Keys == old(r.slotsOf.Keys) && r.signalsOf.Keys == old(r.signalsOf.Keys)
    ensures {g1, g2} <= r.signalsOf[k] && {k, other} <= r.slotsOf[g1] && {k, other} <= r.slotsOf[g2]
  {
    r.Attach(g1, k);
    r.Attach(g2, k);
    r.Attach(g1, other);
    r.Attach(g2, other);
  }
}
