/**
 * The batch merge and its preview: what the list shows afterwards, which
 * bindings stay, and how far the preview's count is right, for any stored
 * configuration.
 */
module DeliveryBatch {
  import opened Common
  import opened Json
  import opened PythonText
  import opened DeliveryModel
  import opened DeliveryTheorems

  /**
   * `item_ids` that is neither a list nor absent hides a legacy `item_id` from
   * the merge, which keeps the entry whole, but not from the list.  This is
   * the line such stray entries show for x.
   */
  function StrayLine(types: seq<Entry>, x: string): Option<Delivery> {
    if types == [] then None
    else if SplitIds(types[0]).None? && LineFor(types[0], x).Some? then LineFor(types[0], x)
    else StrayLine(types[1..], x)
  }

  predicate StrayBound(types: seq<Entry>, x: string) {
    exists i :: 0 <= i < |types| && SplitIds(types[i]).None? && x in BoundIds(types[i])
  }

  /** The bindings of one entry to x that the merge leaves in place. */
  function StayingIn(e: Entry, batch: map<string, Update>, x: string): seq<Entry> {
    var before := Occurrences(BoundIds(e), x, Meaning(e));
    if x !in batch || SplitIds(e).None? then before
    else if batch[x].enabled then [] else WithoutMaterial(before)
  }

  function Staying(types: seq<Entry>, batch: map<string, Update>, x: string): seq<Entry> {
    if types == [] then [] else StayingIn(types[0], batch, x) + Staying(types[1..], batch, x)
  }

  lemma {:induction false} SplitOne(e: Entry, batch: map<string, Update>, x: string)
    ensures Look(Split(e, batch), x) == if x in batch && SplitIds(e).Some? then None else LineFor(e, x)
    ensures Bindings(Split(e, batch), x) == StayingIn(e, batch, x)
  {
    OccurrencesOf(BoundIds(e), x, Meaning(e));
    if SplitIds(e).None? || !Meets(BoundIds(e), batch.Keys) {
      assert x in batch && SplitIds(e).Some? ==> x !in BoundIds(e);
      LookOfOne(e, x);
      BindingsOfOne(e, x);
    } else {
      RemainderBindings(e, y => Stays(e, batch, y), x);
      RemainderLooks(e, y => Stays(e, batch, y), x);
    }
  }

  lemma {:induction false} KeptLooks(types: seq<Entry>, batch: map<string, Update>, x: string)
    ensures Look(Kept(types, batch), x) == if x in batch then StrayLine(types, x) else Look(types, x)
  {
    if types != [] {
      SplitOne(types[0], batch, x);
      KeptLooks(types[1..], batch, x);
      LookJoin(Split(types[0], batch), Kept(types[1..], batch), x);
    }
  }

  lemma {:induction false} KeptBindings(types: seq<Entry>, batch: map<string, Update>, x: string)
    ensures Bindings(Kept(types, batch), x) == Staying(types, batch, x)
  {
    if types != [] {
      SplitOne(types[0], batch, x);
      KeptBindings(types[1..], batch, x);
      BindingsJoin(Split(types[0], batch), Kept(types[1..], batch), x);
    }
  }

  lemma {:induction false} OutsideStays(types: seq<Entry>, batch: map<string, Update>, x: string)
    requires x !in batch
    ensures Staying(types, batch, x) == Bindings(types, x)
  {
    if types != [] {
      OutsideStays(types[1..], batch, x);
    }
  }

  lemma {:induction false} SourceIsShown(types: seq<Entry>, batch: map<string, Update>, x: string)
    requires StrayLine(types, x).None? && x in batch && !batch[x].enabled
    ensures var source := Source(types, batch, x);
            if source.None? then Look(types, x) == None
            else
              && IsMaterial(source.value) && x in BoundIds(source.value)
              && (Payload(source.value).Some? ==> Look(types, x) == LineFor(source.value, x))
  {
    if types != [] {
      SourceIsShown(types[1..], batch, x);
    }
  }

  /**
   * The line of a disabled item is lost: its first material entry cannot be
   * read while a later one was shown.  An entry without any payload field
   * takes over the shown text, which is cut and may have become blank.
   */
  predicate Hidden(types: seq<Entry>, batch: map<string, Update>, u: Update) {
    var source, shown := Source(types, batch, u.item), Look(types, u.item);
    && !u.enabled && shown.Some? && source.Some? && source.value.Entry?
    && if source.value.payload.Some? || source.value.material.Some? then Payload(source.value).None?
       else Strip(shown.value.material) == ""
  }

  /** What the new entry of an update shows. */
  function Result(types: seq<Entry>, batch: map<string, Update>, u: Update): Option<Delivery> {
    if u.enabled then Some(Delivery(u.item, true, u.material))
    else if Look(types, u.item).None? || Hidden(types, batch, u) then None
    else Some(Look(types, u.item).value.(enabled := false))
  }

  /** What the list shows for an updated item afterwards: a stray entry keeps its place before the new one. */
  function Final(types: seq<Entry>, batch: map<string, Update>, u: Update): Option<Delivery> {
    if StrayLine(types, u.item).Some? then StrayLine(types, u.item) else Result(types, batch, u)
  }

  lemma {:induction false} LookIsCut(types: seq<Entry>, x: string)
    requires Look(types, x).Some?
    ensures Look(types, x).value.item == x && |Look(types, x).value.material| <= MAX_MATERIAL
  {
    if LineFor(types[0], x).None? {
      LookIsCut(types[1..], x);
    }
  }

  /** The payload a disabled item keeps. */
  lemma {:induction false} KeptPayload(types: seq<Entry>, batch: map<string, Update>, u: Update)
    requires StrayLine(types, u.item).None? && u.item in batch && batch[u.item] == u
    requires !u.enabled && Look(types, u.item).Some?
    ensures var source, shown := Source(types, batch, u.item), Look(types, u.item).value;
            && source.Some? && source.value.Entry?
            && var p := PayloadField(source.value, Str(shown.material));
               Result(types, batch, u) ==
                 if p.Str? && Strip(p.s) != "" then Some(Delivery(u.item, false, Cut(p.s))) else None
  {
    SourceIsShown(types, batch, u.item);
    LookIsCut(types, u.item);
  }

  /** Whether the merge appends an entry for this update. */
  predicate Appends(types: seq<Entry>, u: Update) {
    u.enabled || Look(types, u.item).Some?
  }

  /** What the entries appended for u say about x. */
  ghost predicate SpeaksFor(out: seq<Entry>, types: seq<Entry>, batch: map<string, Update>, u: Update, x: string) {
    if x != u.item then Look(out, x) == None && Bindings(out, x) == []
    else
      && |Bindings(out, x)| == (if Appends(types, u) then 1 else 0)
      && (StrayLine(types, x).None? ==> Look(out, x) == Result(types, batch, u))
  }

  lemma {:induction false} AppendedLooks(types: seq<Entry>, u: Update, batch: map<string, Update>, shop: seq<Product>,
                                         x: string)
    requires u.item in batch && batch[u.item] == u
    requires u.item in Allowed(shop) && (u.enabled ==> MaterialOk(u.material))
    ensures SpeaksFor(Appended(types, u, batch, shop), types, batch, u, x)
  {
    AllowedAreClean(shop, u.item);
    ViewShows(types, shop, u.item);
    var source, shown := Source(types, batch, u.item), Look(types, u.item);
    var base := if source.Some? && source.value.Entry? then source.value else NO_ENTRY;
    if u.enabled {
      NewEntryBinds(base, u.item, Str(u.material), true, Title(shop, u.item), x);
    } else if shown.Some? {
      NewEntryBinds(base, u.item, PayloadField(base, Str(shown.value.material)), false, Title(shop, u.item), x);
      if StrayLine(types, u.item).None? {
        KeptPayload(types, batch, u);
      }
    }
  }

  lemma {:induction false} BatchOf(updates: seq<Update>, i: nat)
    requires i < |updates| && forall j, k :: 0 <= j < k < |updates| ==> updates[j].item != updates[k].item
    ensures updates[i].item in Batch(updates) && Batch(updates)[updates[i].item] == updates[i]
  {
  }

  lemma {:induction false} ConcatUnbound(parts: seq<seq<Entry>>, x: string)
    requires forall i :: 0 <= i < |parts| ==> Look(parts[i], x) == None && Bindings(parts[i], x) == []
    ensures Look(Concat(parts), x) == None && Bindings(Concat(parts), x) == []
  {
    if parts != [] {
      ConcatUnbound(parts[1..], x);
      LookJoin(parts[0], Concat(parts[1..]), x);
      BindingsJoin(parts[0], Concat(parts[1..]), x);
    }
  }

  /** Only part k speaks of x. */
  lemma {:induction false} ConcatLooks(parts: seq<seq<Entry>>, x: string, k: nat)
    requires k < |parts|
    requires forall i :: 0 <= i < |parts| && i != k ==> Look(parts[i], x) == None && Bindings(parts[i], x) == []
    ensures Look(Concat(parts), x) == Look(parts[k], x) && Bindings(Concat(parts), x) == Bindings(parts[k], x)
  {
    LookJoin(parts[0], Concat(parts[1..]), x);
    BindingsJoin(parts[0], Concat(parts[1..]), x);
    if k == 0 {
      ConcatUnbound(parts[1..], x);
    } else {
      ConcatLooks(parts[1..], x, k - 1);
    }
  }

  /** Appended entries speak of one update each. */
  lemma {:induction false} AppendAllLooks(types: seq<Entry>, updates: seq<Update>, batch: map<string, Update>,
                                          shop: seq<Product>, x: string)
    requires ValidBatch(updates, Allowed(shop))
    requires forall i :: 0 <= i < |updates| ==> updates[i].item in batch && batch[updates[i].item] == updates[i]
    ensures (forall i :: 0 <= i < |updates| ==> updates[i].item != x) ==>
              var out := AppendAll(types, updates, batch, shop); Look(out, x) == None && Bindings(out, x) == []
    ensures forall i :: 0 <= i < |updates| && updates[i].item == x ==>
              SpeaksFor(AppendAll(types, updates, batch, shop), types, batch, updates[i], x)
  {
    var parts := seq(|updates|, i requires 0 <= i < |updates| => Appended(types, updates[i], batch, shop));
    forall i | 0 <= i < |parts| ensures SpeaksFor(parts[i], types, batch, updates[i], x) {
      AppendedLooks(types, updates[i], batch, shop, x);
    }
    if k :| 0 <= k < |updates| && updates[k].item == x {
      ConcatLooks(parts, x, k);
    } else {
      ConcatUnbound(parts, x);
    }
  }

  lemma {:induction false} BatchIsValid(updates: seq<Update>, allowed: set<string>)
    requires ValidBatch(updates, allowed)
    ensures forall i :: 0 <= i < |updates| ==>
              updates[i].item in Batch(updates) && Batch(updates)[updates[i].item] == updates[i]
    ensures forall x :: x in Batch(updates) ==> exists i :: 0 <= i < |updates| && updates[i].item == x
  {
    forall i | 0 <= i < |updates|
      ensures updates[i].item in Batch(updates) && Batch(updates)[updates[i].item] == updates[i]
    {
      BatchOf(updates, i);
    }
  }

  /** What the list shows for any item after the batch. */
  lemma {:induction false} BatchShows(types: seq<Entry>, updates: seq<Update>, shop: seq<Product>, x: string)
    requires ValidBatch(updates, Allowed(shop))
    ensures var batch := Batch(updates);
            Look(MergeBatch(types, updates, shop), x) ==
              if x in batch then Final(types, batch, batch[x]) else Look(types, x)
  {
    var batch := Batch(updates);
    BatchIsValid(updates, Allowed(shop));
    KeptLooks(types, batch, x);
    AppendAllLooks(types, updates, batch, shop, x);
    LookJoin(Kept(types, batch), AppendAll(types, updates, batch, shop), x);
  }

  /** What any item is bound to after the batch. */
  lemma {:induction false} BatchBinds(types: seq<Entry>, updates: seq<Update>, shop: seq<Product>, x: string)
    requires ValidBatch(updates, Allowed(shop))
    ensures var batch, after := Batch(updates), Bindings(MergeBatch(types, updates, shop), x);
            && Staying(types, batch, x) <= after
            && |after| == |Staying(types, batch, x)| + if x in batch && Appends(types, batch[x]) then 1 else 0
  {
    var batch := Batch(updates);
    BatchIsValid(updates, Allowed(shop));
    KeptBindings(types, batch, x);
    AppendAllLooks(types, updates, batch, shop, x);
    BindingsJoin(Kept(types, batch), AppendAll(types, updates, batch, shop), x);
  }

  /** Items outside the batch keep every binding, with everything the entry says, in order. */
  lemma {:induction false} BatchKeepsOthers(types: seq<Entry>, updates: seq<Update>, shop: seq<Product>, x: string)
    requires ValidBatch(updates, Allowed(shop)) && x !in Batch(updates)
    ensures Bindings(MergeBatch(types, updates, shop), x) == Bindings(types, x)
  {
    BatchBinds(types, updates, shop, x);
    OutsideStays(types, Batch(updates), x);
  }

  lemma {:induction false} ShownIsMaterial(types: seq<Entry>, x: string)
    requires Look(types, x).Some?
    ensures |WithoutMaterial(Bindings(types, x))| < |Bindings(types, x)|
  {
    var here := Occurrences(BoundIds(types[0]), x, Meaning(types[0]));
    OccurrencesOf(BoundIds(types[0]), x, Meaning(types[0]));
    WithoutMaterialJoin(here, Bindings(types[1..], x));
    if LineFor(types[0], x).None? {
      ShownIsMaterial(types[1..], x);
    } else {
      FewerWithoutMaterial(Bindings(types[1..], x));
    }
  }

  lemma {:induction false} FewerWithoutMaterial(ms: seq<Entry>)
    ensures |WithoutMaterial(ms)| <= |ms|
  {
    if ms != [] {
      FewerWithoutMaterial(ms[1..]);
    }
  }

  lemma {:induction false} StrayBoundSplit(types: seq<Entry>, x: string)
    requires types != []
    ensures StrayBound(types, x) <==> (SplitIds(types[0]).None? && x in BoundIds(types[0])) || StrayBound(types[1..], x)
  {
    if i :| 0 < i < |types| && SplitIds(types[i]).None? && x in BoundIds(types[i]) {
      assert types[1..][i - 1] == types[i];
    }
    if i :| 0 <= i < |types| - 1 && SplitIds(types[1..][i]).None? && x in BoundIds(types[1..][i]) {
      assert types[i + 1] == types[1..][i];
    }
  }

  /** Without a stray entry, what stays of an item of the batch. */
  lemma {:induction false} StayingPlain(types: seq<Entry>, batch: map<string, Update>, x: string)
    requires x in batch && !StrayBound(types, x)
    ensures Staying(types, batch, x) == if batch[x].enabled then [] else WithoutMaterial(Bindings(types, x))
  {
    if types != [] {
      StrayBoundSplit(types, x);
      StayingPlain(types[1..], batch, x);
      OccurrencesOf(BoundIds(types[0]), x, Meaning(types[0]));
      WithoutMaterialJoin(Occurrences(BoundIds(types[0]), x, Meaning(types[0])), Bindings(types[1..], x));
    }
  }

  lemma {:induction false} StayingStray(types: seq<Entry>, batch: map<string, Update>, x: string)
    requires StrayBound(types, x)
    ensures Staying(types, batch, x) != []
  {
    StrayBoundSplit(types, x);
    OccurrencesOf(BoundIds(types[0]), x, Meaning(types[0]));
    if StrayBound(types[1..], x) {
      StayingStray(types[1..], batch, x);
    }
  }

  lemma {:induction false} StayingFewer(types: seq<Entry>, batch: map<string, Update>, x: string)
    ensures |Staying(types, batch, x)| <= |Bindings(types, x)|
  {
    if types != [] {
      StayingFewer(types[1..], batch, x);
      FewerWithoutMaterial(Occurrences(BoundIds(types[0]), x, Meaning(types[0])));
    }
  }

  /**
   * An item that was bound at most once is bound at most once afterwards, if
   * and only if it is not a stray entry's that gets a second entry.
   */
  lemma {:induction false} BatchBindsOnce(types: seq<Entry>, updates: seq<Update>, shop: seq<Product>, x: string)
    requires ValidBatch(updates, Allowed(shop)) && |Bindings(types, x)| <= 1
    ensures var batch := Batch(updates);
            |Bindings(MergeBatch(types, updates, shop), x)| <= 1 <==>
              !(x in batch && StrayBound(types, x) && Appends(types, batch[x]))
  {
    var batch := Batch(updates);
    BatchBinds(types, updates, shop, x);
    StayingFewer(types, batch, x);
    if x in batch && Appends(types, batch[x]) {
      if StrayBound(types, x) {
        StayingStray(types, batch, x);
      } else {
        StayingPlain(types, batch, x);
        if !batch[x].enabled {
          ShownIsMaterial(types, x);
        }
      }
    }
  }

  // The preview.

  /** The items of the shop that the list shows differently after the batch. */
  ghost function Differing(types: seq<Entry>, updates: seq<Update>, shop: seq<Product>): set<string> {
    var allowed := Allowed(shop);
    var before, after := View(types, allowed), View(MergeBatch(types, updates, shop), allowed);
    set x | x in allowed && LookUp(before, x) != LookUp(after, x)
  }

  ghost function ChangedItems(types: seq<Entry>, updates: seq<Update>): set<string> {
    set i | 0 <= i < |updates| && Changed(updates[i], Look(types, updates[i].item)) :: updates[i].item
  }

  lemma {:induction false} CountsChangedItems(types: seq<Entry>, updates: seq<Update>, shop: seq<Product>)
    requires ValidBatch(updates, Allowed(shop))
    ensures ChangeCount(updates, View(types, Allowed(shop))) == |ChangedItems(types, updates)|
  {
    if updates != [] {
      var u, rest := updates[0], updates[1..];
      ViewShows(types, shop, u.item);
      CountsChangedItems(types, rest, shop);
      var here: set<string> := if Changed(u, Look(types, u.item)) then {u.item} else {};
      ChangedSplit(types, updates);
      assert u.item !in ChangedItems(types, rest);
      assert |ChangedItems(types, updates)| == |here| + |ChangedItems(types, rest)|;
    }
  }

  lemma {:induction false} ChangedSplit(types: seq<Entry>, updates: seq<Update>)
    requires updates != []
    ensures ChangedItems(types, updates) ==
              (if Changed(updates[0], Look(types, updates[0].item)) then {updates[0].item} else {})
                  + ChangedItems(types, updates[1..])
  {
    var rest := updates[1..];
    forall x | x in ChangedItems(types, updates) && x != updates[0].item ensures x in ChangedItems(types, rest) {
      var i :| 0 <= i < |updates| && Changed(updates[i], Look(types, updates[i].item)) && updates[i].item == x;
      assert rest[i - 1] == updates[i];
    }
    forall x | x in ChangedItems(types, rest) ensures x in ChangedItems(types, updates) {
      var i :| 0 <= i < |rest| && Changed(rest[i], Look(types, rest[i].item)) && rest[i].item == x;
      assert updates[i + 1] == rest[i];
    }
    if x :| x in ChangedItems(types, updates) && x == updates[0].item && !Changed(updates[0], Look(types, x)) {
      var i :| 0 <= i < |updates| && Changed(updates[i], Look(types, updates[i].item)) && updates[i].item == x;
      assert rest[i - 1] == updates[i];
    }
  }

  /** Counted, although the entry that is shown is a stray one and stays. */
  predicate Spurious(types: seq<Entry>, u: Update) {
    Changed(u, Look(types, u.item)) && StrayLine(types, u.item).Some? && StrayLine(types, u.item) == Look(types, u.item)
  }

  /** Not counted, although the line is lost, or gives way to the line of a stray entry. */
  predicate Missed(types: seq<Entry>, batch: map<string, Update>, u: Update) {
    && !Changed(u, Look(types, u.item))
    && if StrayLine(types, u.item).Some? then StrayLine(types, u.item) != Look(types, u.item)
         else Hidden(types, batch, u)
  }

  lemma {:induction false} FinalDiffers(types: seq<Entry>, batch: map<string, Update>, u: Update)
    ensures Final(types, batch, u) != Look(types, u.item) <==>
              (Changed(u, Look(types, u.item)) && !Spurious(types, u)) || Missed(types, batch, u)
  {
    if Look(types, u.item).Some? {
      LookIsCut(types, u.item);
    }
  }

  lemma {:induction false} DiffersWhen(types: seq<Entry>, updates: seq<Update>, shop: seq<Product>, x: string)
    requires ValidBatch(updates, Allowed(shop))
    ensures var batch := Batch(updates);
            x in Differing(types, updates, shop) <==>
              && x in batch
              && ((Changed(batch[x], Look(types, x)) && !Spurious(types, batch[x])) || Missed(types, batch, batch[x]))
  {
    var batch := Batch(updates);
    BatchIsValid(updates, Allowed(shop));
    ViewShows(types, shop, x);
    ViewShows(MergeBatch(types, updates, shop), shop, x);
    BatchShows(types, updates, shop, x);
    if x in batch {
      FinalDiffers(types, batch, batch[x]);
    }
  }

  ghost function SpuriousItems(types: seq<Entry>, updates: seq<Update>): set<string> {
    set i | 0 <= i < |updates| && Spurious(types, updates[i]) :: updates[i].item
  }

  ghost function MissedItems(types: seq<Entry>, updates: seq<Update>): set<string> {
    set i | 0 <= i < |updates| && Missed(types, Batch(updates), updates[i]) :: updates[i].item
  }

  lemma {:induction false} ItemSets(types: seq<Entry>, updates: seq<Update>, allowed: set<string>, x: string)
    requires ValidBatch(updates, allowed)
    ensures var batch := Batch(updates);
            && (x in ChangedItems(types, updates) <==> x in batch && Changed(batch[x], Look(types, x)))
            && (x in SpuriousItems(types, updates) <==> x in batch && Spurious(types, batch[x]))
            && (x in MissedItems(types, updates) <==> x in batch && Missed(types, batch, batch[x]))
  {
    BatchIsValid(updates, allowed);
  }

  lemma {:induction false} DifferingItems(types: seq<Entry>, updates: seq<Update>, shop: seq<Product>)
    requires ValidBatch(updates, Allowed(shop))
    ensures SpuriousItems(types, updates) <= ChangedItems(types, updates)
    ensures ChangedItems(types, updates) !! MissedItems(types, updates)
    ensures Differing(types, updates, shop) ==
              (ChangedItems(types, updates) - SpuriousItems(types, updates)) + MissedItems(types, updates)
  {
    var changed, spurious, missed :=
        ChangedItems(types, updates), SpuriousItems(types, updates), MissedItems(types, updates);
    forall x
      ensures x in spurious ==> x in changed
      ensures !(x in changed && x in missed)
      ensures x in Differing(types, updates, shop) <==> (x in changed && x !in spurious) || x in missed
    {
      ItemSets(types, updates, Allowed(shop), x);
      DiffersWhen(types, updates, shop, x);
    }
  }

  /**
   * The preview's change count and the number of items whose line differs
   * after the merge, accounted for item by item: they are equal if and only if
   * as many items are counted in vain as are missed, and they speak of the
   * same items if and only if there are none of either kind.
   */
  lemma {:induction false} PreviewIsExact(types: seq<Entry>, updates: seq<Update>, shop: seq<Product>)
    requires ValidBatch(updates, Allowed(shop))
    ensures ChangeCount(updates, View(types, Allowed(shop))) + |MissedItems(types, updates)| ==
            |Differing(types, updates, shop)| + |SpuriousItems(types, updates)|
    ensures ChangedItems(types, updates) == Differing(types, updates, shop) <==>
            MissedItems(types, updates) == {} && SpuriousItems(types, updates) == {}
  {
    CountsChangedItems(types, updates, shop);
    DifferingItems(types, updates, shop);
    SizesAddUp(ChangedItems(types, updates), SpuriousItems(types, updates), MissedItems(types, updates));
  }

  lemma {:induction false} SizesAddUp<T>(changed: set<T>, spurious: set<T>, missed: set<T>)
    requires spurious <= changed && changed !! missed
    ensures |(changed - spurious) + missed| + |spurious| == |changed| + |missed|
    ensures changed == (changed - spurious) + missed <==> missed == {} && spurious == {}
  {
    assert (changed - spurious) + spurious == changed;
    var differing := (changed - spurious) + missed;
    if changed == differing {
      forall x ensures x !in missed && x !in spurious {
        assert x in changed <==> x in differing;
      }
    }
  }

  // An item bound at most once.

  lemma {:induction false} UnboundIsNotShown(types: seq<Entry>, x: string)
    requires Bindings(types, x) == []
    ensures Look(types, x) == None
  {
    if types != [] {
      OccurrencesOf(BoundIds(types[0]), x, Meaning(types[0]));
      UnboundIsNotShown(types[1..], x);
    }
  }

  lemma {:induction false} UnboundHasNoSource(types: seq<Entry>, batch: map<string, Update>, x: string)
    requires Bindings(types, x) == []
    ensures Source(types, batch, x) == None
  {
    if types != [] {
      OccurrencesOf(BoundIds(types[0]), x, Meaning(types[0]));
      UnboundHasNoSource(types[1..], batch, x);
    }
  }

  lemma {:induction false} BoundOnceIsNotHidden(types: seq<Entry>, batch: map<string, Update>, u: Update)
    requires |Bindings(types, u.item)| <= 1
    ensures !Hidden(types, batch, u)
  {
    if types != [] {
      OccurrencesOf(BoundIds(types[0]), u.item, Meaning(types[0]));
      BoundOnceIsNotHidden(types[1..], batch, u);
      if IsSource(types[0], batch, u.item) {
        UnboundIsNotShown(types[1..], u.item);
      } else if LineFor(types[0], u.item).Some? {
        UnboundHasNoSource(types[1..], batch, u.item);
      }
    }
  }

  lemma {:induction false} BoundOnceShowsStray(types: seq<Entry>, x: string)
    requires |Bindings(types, x)| <= 1 && StrayLine(types, x).Some?
    ensures StrayLine(types, x) == Look(types, x)
  {
    OccurrencesOf(BoundIds(types[0]), x, Meaning(types[0]));
    if LineFor(types[0], x).Some? {
      UnboundIsNotShown(types[1..], x);
      StrayIsShown(types[1..], x);
    } else {
      BoundOnceShowsStray(types[1..], x);
    }
  }

  lemma {:induction false} StrayIsShown(types: seq<Entry>, x: string)
    ensures StrayLine(types, x).Some? ==> Look(types, x).Some?
  {
    if types != [] {
      StrayIsShown(types[1..], x);
    }
  }

  /**
   * When each item of the batch is bound at most once, the count is the number
   * of items whose line differs, if and only if no shown line that the batch
   * would change is a stray entry's.
   */
  lemma {:induction false} PreviewCountsDifferences(types: seq<Entry>, updates: seq<Update>, shop: seq<Product>)
    requires ValidBatch(updates, Allowed(shop))
    requires forall i :: 0 <= i < |updates| ==> |Bindings(types, updates[i].item)| <= 1
    ensures ChangeCount(updates, View(types, Allowed(shop))) == |Differing(types, updates, shop)| <==>
            forall i :: 0 <= i < |updates| ==> !Spurious(types, updates[i])
  {
    forall i | 0 <= i < |updates| ensures !Missed(types, Batch(updates), updates[i]) {
      BoundOnceIsNotHidden(types, Batch(updates), updates[i]);
      if StrayLine(types, updates[i].item).Some? {
        BoundOnceShowsStray(types, updates[i].item);
      }
    }
    assert MissedItems(types, updates) == {};
    PreviewIsExact(types, updates, shop);
    if i :| 0 <= i < |updates| && Spurious(types, updates[i]) {
      assert updates[i].item in SpuriousItems(types, updates);
    } else {
      assert SpuriousItems(types, updates) == {};
    }
  }

  // Previewing again.

  /** The items of the batch that a stray entry still shows otherwise than asked. */
  ghost function Unsettled(types: seq<Entry>, updates: seq<Update>): set<string> {
    set i | 0 <= i < |updates| && StrayLine(types, updates[i].item).Some?
        && Changed(updates[i], StrayLine(types, updates[i].item))
          :: updates[i].item
  }

  lemma {:induction false} FinalChanged(types: seq<Entry>, updates: seq<Update>, shop: seq<Product>, i: nat)
    requires ValidBatch(updates, Allowed(shop)) && i < |updates|
    ensures var u := updates[i];
            Changed(u, Look(MergeBatch(types, updates, shop), u.item)) <==>
              StrayLine(types, u.item).Some? && Changed(u, StrayLine(types, u.item))
  {
    BatchIsValid(updates, Allowed(shop));
    BatchShows(types, updates, shop, updates[i].item);
  }

  /** Previewing the same batch after the merge counts exactly those items; without stray entries, nothing. */
  lemma {:induction false} PreviewAgain(types: seq<Entry>, updates: seq<Update>, shop: seq<Product>)
    requires ValidBatch(updates, Allowed(shop))
    ensures ChangeCount(updates, View(MergeBatch(types, updates, shop), Allowed(shop))) == |Unsettled(types, updates)|
    ensures ChangeCount(updates, View(MergeBatch(types, updates, shop), Allowed(shop))) == 0 <==>
            forall i :: 0 <= i < |updates| ==>
              !(StrayLine(types, updates[i].item).Some? && Changed(updates[i], StrayLine(types, updates[i].item)))
  {
    var after := MergeBatch(types, updates, shop);
    CountsChangedItems(after, updates, shop);
    forall i | 0 <= i < |updates|
      ensures Changed(updates[i], Look(after, updates[i].item)) <==>
                StrayLine(types, updates[i].item).Some? && Changed(updates[i], StrayLine(types, updates[i].item))
    {
      FinalChanged(types, updates, shop, i);
    }
    assert ChangedItems(after, updates) == Unsettled(types, updates);
    UnsettledEmpty(types, updates);
  }

  lemma {:induction false} UnsettledEmpty(types: seq<Entry>, updates: seq<Update>)
    ensures Unsettled(types, updates) == {} <==>
            forall i :: 0 <= i < |updates| ==>
              !(StrayLine(types, updates[i].item).Some? && Changed(updates[i], StrayLine(types, updates[i].item)))
  {
    forall i | 0 <= i < |updates| && StrayLine(types, updates[i].item).Some?
        && Changed(updates[i], StrayLine(types, updates[i].item))
      ensures updates[i].item in Unsettled(types, updates)
    {
    }
  }

  // Both kinds of miscount occur.

  const SHOP := [Product("1", "")]

  lemma {:induction false} ShopHasOne()
    ensures Allowed(SHOP) == {"1"} && Strip("1") == "1" && Strip("a") == "a" && Strip("b") == "b" && Strip("") == ""
  {
    assert SHOP[0].id == "1" && Strip("1") == "1" && IsDigits("1");
  }

  lemma {:induction false} OneUpdate(u: Update)
    requires u.item == "1" && (u.enabled ==> MaterialOk(u.material))
    ensures ValidBatch([u], Allowed(SHOP)) && Batch([u]) == map["1" := u]
  {
    ShopHasOne();
    BatchIsValid([u], Allowed(SHOP));
    assert [u][0] == u && Batch([u]).Keys == {"1"};
  }

  /** A missed item: a blank material entry before a disabled one, and a batch that disables the item again. */
  lemma {:induction false} MissedExample() returns (types: seq<Entry>, updates: seq<Update>)
    ensures ValidBatch(updates, Allowed(SHOP)) && MissedItems(types, updates) == {"1"}
              && SpuriousItems(types, updates) == {}
    ensures ChangeCount(updates, View(types, Allowed(SHOP))) == 0 && |Differing(types, updates, SHOP)| == 1
  {
    var blank := NO_ENTRY.(itemIds := Listed(["1"]), delivery := Some("material"), payload := Some(Str("")));
    var shown := blank.(payload := Some(Str("a")), enabled := Some(Bool(false)));
    var u := Update("1", false, "");
    types, updates := [blank, shown], [u];
    ShopHasOne();
    OneUpdate(u);
    HiddenByBlank(types, blank, shown, Batch(updates), u);
    assert updates[0] == u;
    assert MissedItems(types, updates) == {"1"} && SpuriousItems(types, updates) == {};
    assert ChangedItems(types, updates) == {};
    CountsChangedItems(types, updates, SHOP);
    PreviewIsExact(types, updates, SHOP);
  }

  lemma {:induction false} HiddenByBlank(types: seq<Entry>, blank: Entry, shown: Entry, batch: map<string, Update>,
                                         u: Update)
    requires types == [blank, shown] && u.item in batch && batch[u.item] == u && !u.enabled
    requires BoundIds(blank) == [u.item] && BoundIds(shown) == [u.item] && SplitIds(blank).Some?
              && SplitIds(shown).Some?
    requires IsMaterial(blank) && Payload(blank).None? && blank.payload.Some? && Payload(shown).Some? && !On(shown)
    ensures Missed(types, batch, u) && !Spurious(types, u) && !Changed(u, Look(types, u.item))
  {
    assert types[1..] == [shown] && [shown][1..] == [];
    LookOfOne(shown, u.item);
    assert IsSource(blank, batch, u.item);
    assert StrayLine(types, u.item) == StrayLine([shown], u.item) == None;
  }

  /** An item counted in vain, twice: its only entry has an `item_ids` that is no list. */
  lemma {:induction false} SpuriousExample() returns (types: seq<Entry>, updates: seq<Update>)
    ensures ValidBatch(updates, Allowed(SHOP)) && |Bindings(types, "1")| == 1
    ensures ChangeCount(updates, View(types, Allowed(SHOP))) == 1 && |Differing(types, updates, SHOP)| == 0
    ensures ChangeCount(updates, View(MergeBatch(types, updates, SHOP), Allowed(SHOP))) == 1
  {
    var stray := NO_ENTRY.(itemIds := OtherIds(Str("x")), itemId := Some("1"), delivery := Some("material"),
                           payload := Some(Str("a")));
    var u := Update("1", true, "b");
    types, updates := [stray], [u];
    ShopHasOne();
    OneUpdate(u);
    StrayAlone(types, stray, u);
    assert updates[0] == u;
    assert ChangedItems(types, updates) == {"1"} && SpuriousItems(types, updates) == {"1"};
    assert MissedItems(types, updates) == {} && Unsettled(types, updates) == {"1"};
    CountsChangedItems(types, updates, SHOP);
    PreviewIsExact(types, updates, SHOP);
    PreviewAgain(types, updates, SHOP);
  }

  lemma {:induction false} StrayAlone(types: seq<Entry>, stray: Entry, u: Update)
    requires types == [stray] && BoundIds(stray) == [u.item] && SplitIds(stray).None? && u.enabled
    requires Payload(stray).Some? && Cut(Payload(stray).value) != u.material
    ensures |Bindings(types, u.item)| == 1 && Spurious(types, u) && Changed(u, StrayLine(types, u.item))
  {
    LookOfOne(stray, u.item);
    BindingsOfOne(stray, u.item);
    assert Occurrences([u.item], u.item, Meaning(stray)) == [Meaning(stray)];
    assert StrayLine(types, u.item) == LineFor(stray, u.item);
  }
}
