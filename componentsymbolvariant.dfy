/**
 * ComponentSymbolVariant: a record of a library component (uuid, norm,
 * localized names and descriptions, symbol items) whose setters announce every
 * change on the `onEdited` channel, and whose symbol item list forwards its own
 * edit notifications into that channel.
 *
 * Every call of onEdited.notify(*this) is recorded in `edits` as the value the
 * variant has at that moment, which is what an observer receiving `*this` sees.
 * The channels carry such values.
 *
 * The forwarding connect(onEdited, *this) takes its argument by value: what the
 * item list forwards is a copy of the variant's fields taken when the
 * constructor connects, kept in `forwarded`.
 */
module ComponentSymbolVariants {
  import N = Notifications

  type Uuid = nat
  type Locale = string
  /** LocalizedNameMap / LocalizedDescriptionMap: locale to text. */
  type LocalizedMap = map<Locale, string>
  /** The symbol item list, compared and copied as a whole value. */
  type SymbolItems = seq<nat>

  /** The locale the constructor fills in. */
  const DefaultLocale: Locale := "en_US"

  /** The fields operator== compares. */
  datatype Record = Record(
    uuid: Uuid,
    norm: string,
    names: LocalizedMap,
    descriptions: LocalizedMap,
    symbolItems: SymbolItems)

  /** tryGet(locale) == value: the locale has an entry and it is that value. */
  predicate HasEntry(m: LocalizedMap, locale: Locale, value: string) {
    locale in m && m[locale] == value
  }

  class ComponentSymbolVariant {
    var uuid: Uuid
    var norm: string
    var names: LocalizedMap
    var descriptions: LocalizedMap
    var symbolItems: SymbolItems
    /** onEdited */
    const onEdited: N.Notification<Record>
    /** mSymbolItems.onEdited */
    const itemsEdited: N.Notification<Record>
    /** The copy of *this bound by the forwarding connect, as the constructor saw it. */
    const forwarded: Record
    /** One entry per onEdited.notify(*this), holding the variant as it was then. */
    var edits: seq<Record>

    function Value(): Record
      reads this
    {
      Record(uuid, norm, names, descriptions, symbolItems)
    }

    /** The symbol item list's edits are forwarded to onEdited, with the bound copy as argument. */
    ghost predicate Wired()
      reads this, itemsEdited
    {
      itemsEdited.Valid() && itemsEdited.observers == map[1 := N.Forward(onEdited, forwarded)]
    }

    /** ComponentSymbolVariant(uuid, norm, name_en_US, desc_en_US) */
    constructor (uuid: Uuid, norm: string, nameEnUs: string, descEnUs: string)
      ensures Value() == Record(uuid, norm, map[DefaultLocale := nameEnUs], map[DefaultLocale := descEnUs], [])
      ensures edits == []
      ensures fresh(onEdited) && onEdited.Valid() && onEdited.observers == map[]
      ensures fresh(itemsEdited) && Wired() && forwarded == Value()
    {
      this.uuid := uuid;
      this.norm := norm;
      names := map[DefaultLocale := nameEnUs];
      descriptions := map[DefaultLocale := descEnUs];
      symbolItems := [];
      edits := [];
      onEdited := new N.Notification<Record>();
      itemsEdited := new N.Notification<Record>();
      forwarded := Record(uuid, norm, map[DefaultLocale := nameEnUs], map[DefaultLocale := descEnUs], []);
      new;
      var _ := itemsEdited.ConnectForward(onEdited, forwarded);
    }

    /**
     * The copy constructor: the fields are copied, the new variant has its own
     * onEdited (observers are not copied) and its own forwarding from the items.
     */
    constructor Copy(other: ComponentSymbolVariant)
      ensures Value() == other.Value()
      ensures edits == []
      ensures fresh(onEdited) && onEdited.Valid() && onEdited.observers == map[]
      ensures fresh(itemsEdited) && Wired() && forwarded == other.Value()
    {
      uuid := other.uuid;
      norm := other.norm;
      names := other.names;
      descriptions := other.descriptions;
      symbolItems := other.symbolItems;
      edits := [];
      onEdited := new N.Notification<Record>();
      itemsEdited := new N.Notification<Record>();
      forwarded := other.Value();
      new;
      var _ := itemsEdited.ConnectForward(onEdited, forwarded);
    }

    /** onEdited.notify(*this) */
    method Emit()
      modifies this`edits
      ensures edits == old(edits) + [Value()]
    {
      edits := edits + [Value()];
    }

    /** setNorm: stores the norm and notifies, even when the norm is unchanged. */
    method SetNorm(norm: string)
      modifies this
      ensures Value() == old(Value()).(norm := norm)
      ensures edits == old(edits) + [Value()]
    {
      this.norm := norm;
      Emit();
    }

    /** setName: nothing happens if the locale already has this name. */
    method SetName(locale: Locale, name: string)
      modifies this
      ensures HasEntry(old(names), locale, name) ==> Value() == old(Value()) && edits == old(edits)
      ensures !HasEntry(old(names), locale, name) ==>
        && Value() == old(Value()).(names := old(names)[locale := name])
        && edits == old(edits) + [Value()]
    {
      if HasEntry(names, locale, name) {
        return;
      }
      names := names[locale := name];
      Emit();
    }

    /** setDescription: nothing happens if the locale already has this description. */
    method SetDescription(locale: Locale, desc: string)
      modifies this
      ensures HasEntry(old(descriptions), locale, desc) ==> Value() == old(Value()) && edits == old(edits)
      ensures !HasEntry(old(descriptions), locale, desc) ==>
        && Value() == old(Value()).(descriptions := old(descriptions)[locale := desc])
        && edits == old(edits) + [Value()]
    {
      if HasEntry(descriptions, locale, desc) {
        return;
      }
      descriptions := descriptions[locale := desc];
      Emit();
    }

    /** setNames: nothing happens for an equal map; otherwise the whole map is replaced. */
    method SetNames(names: LocalizedMap)
      modifies this
      ensures names == old(this.names) ==> Value() == old(Value()) && edits == old(edits)
      ensures names != old(this.names) ==>
        && Value() == old(Value()).(names := names)
        && edits == old(edits) + [Value()]
    {
      if names == this.names {
        return;
      }
      this.names := names;
      Emit();
    }

    /** setDescriptions: nothing happens for an equal map; otherwise the whole map is replaced. */
    method SetDescriptions(descriptions: LocalizedMap)
      modifies this
      ensures descriptions == old(this.descriptions) ==> Value() == old(Value()) && edits == old(edits)
      ensures descriptions != old(this.descriptions) ==>
        && Value() == old(Value()).(descriptions := descriptions)
        && edits == old(edits) + [Value()]
    {
      if descriptions == this.descriptions {
        return;
      }
      this.descriptions := descriptions;
      Emit();
    }

    /** operator==: every compared field is equal. */
    function Equals(rhs: ComponentSymbolVariant): (r: bool)
      reads this, rhs
      ensures r <==> Value() == rhs.Value()
    {
      if uuid != rhs.uuid then false
      else if norm != rhs.norm then false
      else if names != rhs.names then false
      else if descriptions != rhs.descriptions then false
      else if symbolItems != rhs.symbolItems then false
      else true
    }

    /**
     * operator=: the uuid is copied, the norm, names and descriptions go
     * through their setters (the norm always notifies, the maps only when they
     * differ), the items are copied, and a final notification follows.
     */
    method Assign(rhs: ComponentSymbolVariant)
      modifies this
      ensures Equals(rhs) && Value() == old(rhs.Value())
      ensures
        var v, r := old(Value()), old(rhs.Value());
        var afterNorm := v.(uuid := r.uuid, norm := r.norm);
        var afterNames := afterNorm.(names := r.names);
        var afterDescriptions := afterNames.(descriptions := r.descriptions);
        edits == old(edits) + [afterNorm]
                 + (if v.names != r.names then [afterNames] else [])
                 + (if v.descriptions != r.descriptions then [afterDescriptions] else [])
                 + [r]
      ensures |edits| >= |old(edits)| + 2
    {
      uuid := rhs.uuid;
      SetNorm(rhs.norm);
      SetNames(rhs.names);
      SetDescriptions(rhs.descriptions);
      symbolItems := rhs.symbolItems;
      Emit();
    }
  }

  /**
   * An edit of the symbol item list of a variant built by any constructor
   * reaches the variant's own onEdited, with the copy bound at construction
   * as argument, whatever the list passes and whatever the variant holds now.
   */
  method ItemEditReachesVariant(v: ComponentSymbolVariant, p: Record) returns (calls: seq<N.Invocation<Record>>)
    requires v.Wired()
    ensures calls == [N.ForwardedNotify(v.onEdited, v.forwarded)]
  {
    var ids;
    ids, calls := v.itemsEdited.Notify(p);
    assert 1 in ids && |ids| == 1;
  }

  /**
   * The forwarded argument is the copy taken at construction: after setNorm
   * changes the variant, an item edit still forwards the fields it had before.
   */
  method ForwardedCopyIsTakenAtConstruction(uuid: Uuid, norm: string, name: string, desc: string, newNorm: string, p: Record)
      returns (v: ComponentSymbolVariant, calls: seq<N.Invocation<Record>>)
    ensures v.norm == newNorm
    ensures calls == [N.ForwardedNotify(v.onEdited,
                        Record(uuid, norm, map[DefaultLocale := name], map[DefaultLocale := desc], []))]
  {
    v := new ComponentSymbolVariant(uuid, norm, name, desc);
    v.SetNorm(newNorm);
    calls := ItemEditReachesVariant(v, p);
  }

  /** operator== is an equivalence on the compared fields. */
  lemma EqualsIsEquivalence(a: ComponentSymbolVariant, b: ComponentSymbolVariant, c: ComponentSymbolVariant)
    ensures a.Equals(a)
    ensures a.Equals(b) ==> b.Equals(a)
    ensures a.Equals(b) && b.Equals(c) ==> a.Equals(c)
  {
  }
}
