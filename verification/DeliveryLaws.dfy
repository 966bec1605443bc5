/**
 * What the delivery functions mean, said of the stored fields: which line an
 * item shows, what a merge leaves of every entry, and what it writes.
 */
module DeliveryLaws {
  import opened Common
  import opened Json
  import opened PythonText
  import opened DeliveryModel
  import opened DeliveryTheorems
  import opened DeliveryBatch
  import opened DeliveryConfig

  // ----- the list -----

  /** The shop sells x: a number, given with or without white space around it. */
  predicate Sells(shop: seq<Product>, x: string) {
    && x != "" && (forall c :: c in x ==> '0' <= c <= '9')
    && exists i :: 0 <= i < |shop| && Strip(shop[i].id) == x
  }

  lemma {:induction false} SellsMeans(shop: seq<Product>, x: string)
    ensures x in Allowed(shop) <==> Sells(shop, x)
  {
    assert forall i :: 0 <= i < |x| ==> x[i] in x;
  }

  /** The entry is bound to x. */
  predicate Names(e: Entry, x: string) {
    e.Entry? &&
    match e.itemIds
    case Listed(ids) => exists i :: 0 <= i < |ids| && Strip(ids[i]) == x
    case _ => e.itemId.Some? && Strip(e.itemId.value) == x
  }

  lemma {:induction false} NamesMeans(e: Entry, x: string)
    ensures x in BoundIds(e) <==> Names(e, x)
  {
    if e.Entry? && e.itemIds.Listed? {
      var ids := e.itemIds.ids;
      assert |BoundIds(e)| == |ids| && forall i :: 0 <= i < |ids| ==> BoundIds(e)[i] == Strip(ids[i]);
    }
  }

  /** The entry shows this line: it is material, switched on or off, with a text that is not blank, cut to 8000. */
  predicate ShowsLine(e: Entry, d: Delivery) {
    && Names(e, d.item) && e.delivery == Some("material")
    && d.enabled == (e.enabled.None? || e.enabled.value == Bool(true))
    && (e.payload.Some? || e.material.Some?)
    && var text := if e.payload.Some? then e.payload.value else e.material.value;
       text.Str? && !Blank(text.s) && d.material == text.s[..if |text.s| < 8000 then |text.s| else 8000]
  }

  predicate ShowsItem(e: Entry, x: string) {
    && Names(e, x) && e.delivery == Some("material") && (e.payload.Some? || e.material.Some?)
    && var text := if e.payload.Some? then e.payload.value else e.material.value;
       text.Str? && !Blank(text.s)
  }

  /** The first entry that shows anything for the item shows this line. */
  predicate FirstShows(types: seq<Entry>, i: nat, d: Delivery) {
    i < |types| && ShowsLine(types[i], d) && forall j :: 0 <= j < i ==> !ShowsItem(types[j], d.item)
  }

  lemma {:induction false} LineMeans(e: Entry, x: string, d: Delivery)
    ensures LineFor(e, x) == Some(d) <==> ShowsLine(e, d) && d.item == x
    ensures LineFor(e, x).Some? <==> ShowsItem(e, x)
  {
    NamesMeans(e, x);
    if IsMaterial(e) && PayloadField(e, Str("")).Str? {
      BlankMeans(PayloadField(e, Str("")).s);
      BlankMeans("");
      WholeText(PayloadField(e, Str("")).s);
    }
  }

  lemma {:induction false} WholeText(s: string)
    ensures Cut(s) == s[..if |s| < 8000 then |s| else 8000]
  {
    assert s[..|s|] == s;
  }

  lemma {:induction false} FirstShift(e: Entry, rest: seq<Entry>, i: nat, d: Delivery)
    ensures FirstShows([e] + rest, i + 1, d) <==> !ShowsItem(e, d.item) && FirstShows(rest, i, d)
  {
    var types := [e] + rest;
    if i < |rest| {
      assert types[i + 1] == rest[i] && types[0] == e;
      assert forall j :: 0 <= j < i ==> types[j + 1] == rest[j];
      if !ShowsItem(e, d.item) && FirstShows(rest, i, d) {
        forall j | 0 <= j < i + 1 ensures !ShowsItem(types[j], d.item) {
          assert j > 0 ==> types[j] == rest[j - 1];
        }
      }
    }
  }

  lemma {:induction false} FirstHere(e: Entry, rest: seq<Entry>, d: Delivery)
    ensures (exists i: nat :: FirstShows([e] + rest, i, d)) <==>
              ShowsLine(e, d) || (!ShowsItem(e, d.item) && exists i: nat :: FirstShows(rest, i, d))
  {
    var types := [e] + rest;
    assert types[0] == e;
    if ShowsLine(e, d) {
      assert FirstShows(types, 0, d);
    }
    if i: nat :| FirstShows(types, i, d) && i > 0 {
      FirstShift(e, rest, i - 1, d);
    }
    if i: nat :| FirstShows(rest, i, d) {
      FirstShift(e, rest, i, d);
    }
  }

  lemma {:induction false} LookMeans(types: seq<Entry>, x: string, d: Delivery)
    ensures Look(types, x) == Some(d) <==> d.item == x && exists i: nat :: FirstShows(types, i, d)
  {
    if types != [] {
      LookMeans(types[1..], x, d);
      LineMeans(types[0], x, d);
      FirstHere(types[0], types[1..], d);
      assert types == [types[0]] + types[1..];
    }
  }

  /** The list has a line for an item exactly when the shop sells it and some entry shows it; the first one does. */
  lemma {:induction false} ShownMeans(types: seq<Entry>, shop: seq<Product>, d: Delivery)
    ensures d in View(types, Allowed(shop)) <==> Sells(shop, d.item) && exists i: nat :: FirstShows(types, i, d)
  {
    var view := View(types, Allowed(shop));
    ViewShows(types, shop, d.item);
    LookMeans(types, d.item, d);
    SellsMeans(shop, d.item);
    LookUpFirst(view, d.item);
    DedupIsDistinct(Lines(types), Allowed(shop), {});
    if d in view {
      var i :| 0 <= i < |view| && view[i] == d;
      var j :| 0 <= j < |view| && view[j] == LookUp(view, d.item).value;
      assert i == j;
    }
  }

  // ----- what a merge leaves of an entry -----

  /** The chosen ids, in their order. */
  function Pick(ids: seq<string>, chosen: string -> bool): seq<string> {
    if ids == [] then []
    else Pick(ids[..|ids| - 1], chosen) + if chosen(ids[|ids| - 1]) then [ids[|ids| - 1]] else []
  }

  lemma {:induction false} PickAll(x: string, ids: seq<string>, chosen: string -> bool)
    ensures Pick([x] + ids, chosen) == (if chosen(x) then [x] else []) + Pick(ids, chosen)
  {
    var all := [x] + ids;
    if ids == [] {
      assert all[..0] == [] && Pick([], chosen) == [];
    } else {
      assert all[..|all| - 1] == [x] + ids[..|ids| - 1];
      PickAll(x, ids[..|ids| - 1], chosen);
    }
  }

  lemma {:induction false} FilterPicks(ids: seq<string>, keep: string -> bool, chosen: string -> bool)
    requires forall x :: keep(x) == chosen(x)
    ensures Filter(ids, keep) == Pick(ids, chosen)
  {
    if ids != [] {
      FilterPicks(ids[1..], keep, chosen);
      PickAll(ids[0], ids[1..], chosen);
      assert ids == [ids[0]] + ids[1..];
    }
  }

  /** The ids of an entry without the white space around them. */
  function Trimmed(e: Entry): (ids: seq<string>)
    requires e.Entry?
  {
    match e.itemIds
    case Listed(ids) => seq(|ids|, i requires 0 <= i < |ids| => Strip(ids[i]))
    case _ => if e.itemId.Some? then [Strip(e.itemId.value)] else []
  }

  /** A batch goes into this entry: its ids are a list, or there is a single old-style id and no list field. */
  predicate Splittable(e: Entry) {
    e.Entry? && (e.itemIds.Listed? || (e.itemIds.NoIds? && e.itemId.Some?))
  }

  predicate Selects(updates: seq<Update>, x: string) {
    exists i :: 0 <= i < |updates| && updates[i].item == x
  }

  /** The id stays in the entry: not selected, or only to be disabled in an entry that is no material. */
  predicate Survives(e: Entry, updates: seq<Update>, x: string)
    requires e.Entry?
  {
    forall i :: 0 <= i < |updates| && updates[i].item == x ==> !updates[i].enabled && e.delivery != Some("material")
  }

  /** What the batch leaves of one entry: the whole of it, or its surviving ids, with everything else as it was. */
  predicate Left(e: Entry, updates: seq<Update>, piece: seq<Entry>) {
    if !Splittable(e) || (forall x :: x in Trimmed(e) ==> !Selects(updates, x)) then piece == [e]
    else
      var ids := Pick(Trimmed(e), x => Survives(e, updates, x));
      piece == if ids == [] then [] else [e.(itemIds := Listed(ids), itemId := None)]
  }

  lemma {:induction false} SelectedMeans(updates: seq<Update>, allowed: set<string>, x: string)
    requires ValidBatch(updates, allowed)
    ensures x in Batch(updates) <==> Selects(updates, x)
    ensures forall i :: 0 <= i < |updates| && updates[i].item == x ==>
              x in Batch(updates) && Batch(updates)[x] == updates[i]
  {
    BatchIsValid(updates, allowed);
  }

  lemma {:induction false} StaysMeans(e: Entry, updates: seq<Update>, allowed: set<string>, x: string)
    requires ValidBatch(updates, allowed) && e.Entry?
    ensures Stays(e, Batch(updates), x) <==> Survives(e, updates, x)
  {
    SelectedMeans(updates, allowed, x);
  }

  lemma {:induction false} SplitMeans(e: Entry, updates: seq<Update>, allowed: set<string>)
    requires ValidBatch(updates, allowed)
    ensures Left(e, updates, Split(e, Batch(updates)))
  {
    if Splittable(e) {
      var batch := Batch(updates);
      assert BoundIds(e) == Trimmed(e);
      forall x ensures Stays(e, batch, x) <==> Survives(e, updates, x) {
        StaysMeans(e, updates, allowed, x);
      }
      forall x ensures x in batch <==> Selects(updates, x) {
        SelectedMeans(updates, allowed, x);
      }
      FilterPicks(Trimmed(e), x => Stays(e, batch, x), x => Survives(e, updates, x));
    }
  }

  // ----- what a merge writes -----

  ghost predicate FirstAt(types: seq<Entry>, fits: Entry -> bool, e: Entry, i: nat) {
    i < |types| && types[i] == e && fits(e) && forall j :: 0 <= j < i ==> !fits(types[j])
  }

  /** The first entry with this property, if there is one. */
  ghost predicate IsFirst(types: seq<Entry>, fits: Entry -> bool, found: Option<Entry>) {
    if found.None? then forall i :: 0 <= i < |types| ==> !fits(types[i])
    else exists i: nat :: FirstAt(types, fits, found.value, i)
  }

  lemma {:induction false} FirstMore(types: seq<Entry>, fits: Entry -> bool, found: Option<Entry>)
    requires types != []
    requires if fits(types[0]) then found == Some(types[0]) else IsFirst(types[1..], fits, found)
    ensures IsFirst(types, fits, found)
  {
    if fits(types[0]) {
      assert FirstAt(types, fits, types[0], 0);
    } else {
      if found.Some? {
        var rest := types[1..];
        var i: nat :| FirstAt(rest, fits, found.value, i);
        assert types[i + 1] == rest[i];
        forall j | 0 <= j < i + 1 ensures !fits(types[j]) {
          assert j > 0 ==> types[j] == rest[j - 1];
        }
        assert FirstAt(types, fits, found.value, i + 1);
      } else {
        assert forall j :: 0 < j < |types| ==> types[j] == types[1..][j - 1];
      }
    }
  }

  /** Product i is the first with this id, and this is its title, at most 160 characters of it. */
  predicate TitleAt(shop: seq<Product>, x: string, title: string, i: nat) {
    && i < |shop| && shop[i].id == x && (forall j :: 0 <= j < i ==> shop[j].id != x)
    && title == if shop[i].title == "" then "未命名商品"
                else shop[i].title[..if |shop[i].title| < 160 then |shop[i].title| else 160]
  }

  ghost predicate IsTitle(shop: seq<Product>, x: string, title: string) {
    if forall i :: 0 <= i < |shop| ==> shop[i].id != x then title == "未命名商品"
    else exists i: nat :: TitleAt(shop, x, title, i)
  }

  lemma {:induction false} TitleLater(p: Product, rest: seq<Product>, x: string, title: string, i: nat)
    requires p.id != x && TitleAt(rest, x, title, i)
    ensures TitleAt([p] + rest, x, title, i + 1)
  {
    var shop := [p] + rest;
    assert shop[i + 1] == rest[i];
    forall j | 0 <= j < i + 1 ensures shop[j].id != x {
      assert j > 0 ==> shop[j] == rest[j - 1];
    }
  }

  lemma {:induction false} TitleMeans(shop: seq<Product>, x: string)
    ensures IsTitle(shop, x, Title(shop, x))
  {
    if shop != [] && shop[0].id == x {
      assert TitleAt(shop, x, Title(shop, x), 0);
    } else if shop != [] {
      var rest := shop[1..];
      TitleMeans(rest, x);
      assert shop == [shop[0]] + rest && forall j :: 0 < j < |shop| ==> shop[j] == rest[j - 1];
      if i: nat :| TitleAt(rest, x, Title(rest, x), i) {
        TitleLater(shop[0], rest, x, Title(rest, x), i);
      }
    }
  }

  /** How many items an entry is bound to. */
  function Size(e: Entry): nat
    requires e.Entry?
  {
    |Trimmed(e)|
  }

  predicate Nonempty(s: Option<string>) {
    s.Some? && s.value != ""
  }

  /**
   * The written entry binds x alone to this material.  It takes over the name
   * and all other fields of the entry it replaces, and its id unless that
   * entry was shared.
   */
  ghost predicate Replaces(n: Entry, source: Option<Entry>, x: string, payload: Json, enabled: bool,
                           shop: seq<Product>) {
    && n.Entry? && n.itemIds == Listed([x]) && n.itemId == None && n.delivery == Some("material")
    && n.enabled == Some(Bool(enabled)) && n.payload == Some(payload) && n.material == None && n.resourceMatch == None
    && (source.Some? && source.value.Entry? ==>
          && n.rest == source.value.rest
          && n.id == (if Size(source.value) == 1 && Nonempty(source.value.id) then source.value.id
                      else Some("basic-" + x))
          && (Nonempty(source.value.name) ==> n.name == source.value.name))
    && (source.None? ==> n.rest == map[] && n.id == Some("basic-" + x))
    && (!(source.Some? && source.value.Entry? && Nonempty(source.value.name)) ==>
          n.name.Some? && IsTitle(shop, x, n.name.value))
  }

  lemma {:induction false} NewEntryMeans(source: Option<Entry>, x: string, payload: Json, enabled: bool,
                                         shop: seq<Product>)
    requires source.Some? ==> source.value.Entry?
    ensures Replaces(NewEntry(if source.Some? then source.value else NO_ENTRY, x, payload, enabled, Title(shop, x)),
                     source, x, payload, enabled, shop)
  {
    TitleMeans(shop, x);
  }

  /** The entry is replaced for the update: it can be split, names the item, and is material if it is only disabled. */
  predicate IsReplaced(e: Entry, u: Update) {
    Splittable(e) && Names(e, u.item) && (u.enabled || e.delivery == Some("material"))
  }

  lemma {:induction false} SourceMeans(types: seq<Entry>, updates: seq<Update>, allowed: set<string>, i: nat)
    requires ValidBatch(updates, allowed) && i < |updates|
    ensures IsFirst(types, e => IsReplaced(e, updates[i]), Source(types, Batch(updates), updates[i].item))
  {
    if types != [] {
      SourceMeans(types[1..], updates, allowed, i);
      NamesMeans(types[0], updates[i].item);
      SelectedMeans(updates, allowed, updates[i].item);
      FirstMore(types, e => IsReplaced(e, updates[i]), Source(types, Batch(updates), updates[i].item));
    }
  }

  /** The text kept by a disabled item: the replaced entry's own, or what was shown. */
  function KeptText(source: Option<Entry>, shown: string): Json {
    if source.Some? && source.value.Entry? && source.value.payload.Some? then source.value.payload.value
    else if source.Some? && source.value.Entry? && source.value.material.Some? then source.value.material.value
    else Str(shown)
  }

  /** What one update appends: nothing when it disables an item that is not shown, else one entry for the item. */
  ghost predicate Writes(types: seq<Entry>, u: Update, shop: seq<Product>, out: seq<Entry>) {
    exists source :: IsFirst(types, e => IsReplaced(e, u), source) && WritesFrom(types, u, shop, out, source)
  }

  ghost predicate WritesFrom(types: seq<Entry>, u: Update, shop: seq<Product>, out: seq<Entry>, source: Option<Entry>) {
    if u.enabled then |out| == 1 && Replaces(out[0], source, u.item, Str(u.material), true, shop)
    else
      forall d :: d in View(types, Allowed(shop)) && d.item == u.item ==>
        |out| == 1 && Replaces(out[0], source, u.item, KeptText(source, d.material), false, shop)
  }

  /** No line of the list is about this item. */
  predicate NotShown(types: seq<Entry>, shop: seq<Product>, x: string) {
    forall d :: d in View(types, Allowed(shop)) ==> d.item != x
  }

  lemma {:induction false} AppendedMeans(types: seq<Entry>, updates: seq<Update>, shop: seq<Product>, i: nat)
    requires ValidBatch(updates, Allowed(shop)) && i < |updates|
    ensures Writes(types, updates[i], shop, Appended(types, updates[i], Batch(updates), shop))
    ensures !updates[i].enabled && NotShown(types, shop, updates[i].item) ==>
              Appended(types, updates[i], Batch(updates), shop) == []
  {
    var u := updates[i];
    var source, current := Source(types, Batch(updates), u.item), LookUp(View(types, Allowed(shop)), u.item);
    SourceMeans(types, updates, Allowed(shop), i);
    SourceIsEntry(types, Batch(updates), u.item);
    LookUpFirst(View(types, Allowed(shop)), u.item);
    WritesWith(types, u, shop, source, current);
  }

  lemma {:induction false} WritesWith(types: seq<Entry>, u: Update, shop: seq<Product>, source: Option<Entry>,
                                      current: Option<Delivery>)
    requires current == LookUp(View(types, Allowed(shop)), u.item) && (source.Some? ==> source.value.Entry?)
    ensures WritesFrom(types, u, shop, NewFrom(u, source, current, Title(shop, u.item)), source)
  {
    if u.enabled {
      NewEntryMeans(source, u.item, Str(u.material), true, shop);
    } else if current.Some? {
      NewEntryMeans(source, u.item, KeptText(source, current.value.material), false, shop);
    }
    forall d | d in View(types, Allowed(shop)) && d.item == u.item ensures current == Some(d) {
      OneLine(types, shop, d);
    }
  }

  lemma {:induction false} OneLine(types: seq<Entry>, shop: seq<Product>, d: Delivery)
    requires d in View(types, Allowed(shop))
    ensures LookUp(View(types, Allowed(shop)), d.item) == Some(d)
  {
    var view := View(types, Allowed(shop));
    LookUpFirst(view, d.item);
    DedupIsDistinct(Lines(types), Allowed(shop), {});
    var i :| 0 <= i < |view| && view[i] == d;
    var j :| 0 <= j < |view| && view[j] == LookUp(view, d.item).value;
  }

  /** The update would change the list: it enables another line than the one shown, or disables an enabled one. */
  predicate WouldChange(view: seq<Delivery>, u: Update) {
    if u.enabled then Delivery(u.item, true, u.material) !in view
    else exists i :: 0 <= i < |view| && view[i].item == u.item && view[i].enabled
  }

  lemma {:induction false} ChangeMeans(types: seq<Entry>, shop: seq<Product>, u: Update)
    ensures var view := View(types, Allowed(shop));
            Changed(u, LookUp(view, u.item)) <==> WouldChange(view, u)
  {
    var view := View(types, Allowed(shop));
    LookUpFirst(view, u.item);
    forall i | 0 <= i < |view| && view[i].item == u.item ensures LookUp(view, u.item) == Some(view[i]) {
      OneLine(types, shop, view[i]);
    }
  }

  /** The preview counts exactly the updates that would change the list. */
  lemma {:induction false} PreviewMeans(types: seq<Entry>, shop: seq<Product>, updates: seq<Update>, u: Update)
    ensures var view := View(types, Allowed(shop));
            && ChangeCount([], view) == 0
            && ChangeCount(updates + [u], view) == ChangeCount(updates, view) + if WouldChange(view, u) then 1 else 0
  {
    if updates == [] {
      ChangeMeans(types, shop, u);
      assert [] + [u] == [u] && [u][1..] == [];
    } else {
      assert (updates + [u])[1..] == updates[1..] + [u];
      PreviewMeans(types, shop, updates[1..], u);
    }
  }

  lemma {:induction false} SourceIsEntry(types: seq<Entry>, batch: map<string, Update>, x: string)
    ensures Source(types, batch, x).Some? ==> Source(types, batch, x).value.Entry?
  {
    if types != [] {
      SourceIsEntry(types[1..], batch, x);
    }
  }

  // ----- the two merges -----

  /**
   * The batch merge, entry by entry and update by update: what is left of the
   * stored entries in their order, then what the updates write in theirs.
   */
  lemma {:induction false} BatchMergeMeans(types: seq<Entry>, updates: seq<Update>, shop: seq<Product>)
    returns (left: seq<seq<Entry>>, written: seq<seq<Entry>>)
    requires ValidBatch(updates, Allowed(shop))
    ensures MergeBatch(types, updates, shop) == Concat(left) + Concat(written)
    ensures |left| == |types| && forall i :: 0 <= i < |types| ==> Left(types[i], updates, left[i])
    ensures |written| == |updates| && forall i :: 0 <= i < |updates| ==> Writes(types, updates[i], shop, written[i])
    ensures forall i :: 0 <= i < |updates| && !updates[i].enabled && NotShown(types, shop, updates[i].item) ==>
              written[i] == []
  {
    left := seq(|types|, i requires 0 <= i < |types| => Split(types[i], Batch(updates)));
    written := seq(|updates|, i requires 0 <= i < |updates| => Appended(types, updates[i], Batch(updates), shop));
    KeptIsConcat(types, Batch(updates), left);
    forall i | 0 <= i < |types| ensures Left(types[i], updates, left[i]) {
      SplitMeans(types[i], updates, Allowed(shop));
    }
    forall i | 0 <= i < |updates|
      ensures Writes(types, updates[i], shop, written[i])
      ensures !updates[i].enabled && NotShown(types, shop, updates[i].item) ==> written[i] == []
    {
      AppendedMeans(types, updates, shop, i);
    }
  }

  lemma {:induction false} KeptIsConcat(types: seq<Entry>, batch: map<string, Update>, left: seq<seq<Entry>>)
    requires |left| == |types| && forall i :: 0 <= i < |types| ==> left[i] == Split(types[i], batch)
    ensures Kept(types, batch) == Concat(left)
  {
    if types != [] {
      KeptIsConcat(types[1..], batch, left[1..]);
    }
  }

  /** What the full save leaves of an entry: nothing of a material, else the ids that are not saved. */
  predicate LeftBySave(e: Entry, ds: seq<Delivery>, piece: seq<Entry>)
    requires e.Entry?
  {
    if e.delivery == Some("material") then piece == []
    else if forall x :: x in Trimmed(e) ==> !SavesItem(ds, x) then piece == [e]
    else
      var ids := Pick(Trimmed(e), x => !SavesItem(ds, x));
      piece == if ids == [] then [] else [e.(itemIds := Listed(ids), itemId := None)]
  }

  predicate SavesItem(ds: seq<Delivery>, x: string) {
    exists i :: 0 <= i < |ds| && ds[i].item == x
  }

  lemma {:induction false} RetainMeans(e: Entry, ds: seq<Delivery>)
    requires e.Entry?
    ensures LeftBySave(e, ds, Retain(e, Items(ds)))
  {
    assert BoundIds(e) == Trimmed(e);
    assert forall x :: x in Items(ds) <==> SavesItem(ds, x);
    FilterPicks(Trimmed(e), x => x !in Items(ds), x => !SavesItem(ds, x));
  }

  lemma {:induction false} RetainIsConcat(types: seq<Entry>, items: set<string>, left: seq<seq<Entry>>)
    requires |left| == |types| && forall i :: 0 <= i < |types| ==> left[i] == Retain(types[i], items)
    ensures RetainAll(types, items) == Concat(left)
  {
    if types != [] {
      RetainIsConcat(types[1..], items, left[1..]);
    }
  }

  lemma {:induction false} FirstBoundMeans(types: seq<Entry>, x: string) returns (source: Option<Entry>)
    ensures IsFirst(types, e => Names(e, x), source)
    ensures FirstBound(types, x) == if source.Some? then source.value else NO_ENTRY
    ensures source.Some? ==> source.value.Entry?
  {
    source := None;
    if types != [] {
      source := FirstBoundMeans(types[1..], x);
      NamesMeans(types[0], x);
      if Names(types[0], x) {
        source := Some(types[0]);
      }
      FirstMore(types, e => Names(e, x), source);
    }
  }

  /** The entry written for a saved line: it replaces the first entry bound to the item, material or not. */
  ghost predicate Saves(types: seq<Entry>, d: Delivery, shop: seq<Product>, n: Entry) {
    exists source :: IsFirst(types, e => Names(e, d.item), source)
                     && Replaces(n, source, d.item, Str(d.material), d.enabled, shop)
  }

  lemma {:induction false} SaveOneMeans(types: seq<Entry>, d: Delivery, shop: seq<Product>)
    ensures Saves(types, d, shop, SaveOne(types, d, shop))
  {
    var source := FirstBoundMeans(types, d.item);
    NewEntryMeans(source, d.item, Str(d.material), d.enabled, shop);
  }

  /** The full save: what is left of the stored entries in their order, then one entry for every saved line. */
  lemma {:induction false} FullSaveMeans(types: seq<Entry>, ds: seq<Delivery>, shop: seq<Product>)
    returns (left: seq<seq<Entry>>, saved: seq<Entry>)
    requires forall i :: 0 <= i < |types| ==> types[i].Entry?
    ensures MergeFull(types, ds, shop) == Concat(left) + saved
    ensures |left| == |types| && forall i :: 0 <= i < |types| ==> LeftBySave(types[i], ds, left[i])
    ensures |saved| == |ds| && forall i :: 0 <= i < |ds| ==> Saves(types, ds[i], shop, saved[i])
  {
    left := seq(|types|, i requires 0 <= i < |types| => Retain(types[i], Items(ds)));
    RetainIsConcat(types, Items(ds), left);
    forall i | 0 <= i < |types| ensures LeftBySave(types[i], ds, left[i]) {
      RetainMeans(types[i], ds);
    }
    saved := SaveAll(types, ds, shop);
    forall i | 0 <= i < |ds| ensures Saves(types, ds[i], shop, saved[i]) {
      SaveOneMeans(types, ds[i], shop);
    }
  }

  /** The stored document: the new entries, every other key but the receipt as it was, and a version. */
  lemma {:induction false} StoredMeans(p: Products, types: seq<Entry>)
    ensures var out := Stored(p, types);
            && out.Dict? && out.types == TypeList(types)
            && (forall k :: k in out.fields <==> k == "version" || (p.Dict? && k in p.fields && k != "_ops_receipt"))
            && (p.Dict? ==> forall k :: k in out.fields && k in p.fields ==> out.fields[k] == p.fields[k])
            && (!(p.Dict? && "version" in p.fields) ==> out.fields["version"] == Int(1))
  {
  }

  /** The list and the merges read the entries of a `types` list, and nothing from any other document. */
  lemma {:induction false} EntriesMean(p: Products)
    ensures p.Dict? && p.types.TypeList? ==> ViewEntries(p) == p.types.entries
    ensures p.NoFile? || p.NotDict? || (p.Dict? && !p.types.TypeList?) ==> ViewEntries(p) == []
  {
  }

  /** Nothing, or an object whose `types` is missing or a list, can be merged into. */
  lemma {:induction false} RefusedMeans(p: Products)
    ensures !Refused(p) <==> p == NoFile || (p.Dict? && (p.types == NoTypes || p.types.TypeList?))
  {
  }

  // ----- what may be submitted -----

  /** An item id: no boolean, and between 1 and 64 digits once trimmed. */
  lemma {:induction false} ItemIdMeans(id: RawId, x: string)
    ensures SafeItemId(id) == Some(x) <==>
              && id.TextId? && x == Strip(id.text) && 1 <= |x| <= 64
              && forall c :: c in x ==> '0' <= c <= '9'
  {
    assert forall i :: 0 <= i < |x| ==> x[i] in x;
  }

  predicate PlainText(s: string) {
    forall c :: c in s ==> (c >= ' ' && c as int != 127) || c == '\t' || c == '\n' || c == '\r'
  }

  lemma {:induction false} MaterialMeans(v: Json, text: string)
    ensures CleanMaterial(v) == Some(text) <==>
              v.Str? && text == Strip(v.s) && !Blank(v.s) && |text| <= 8000 && PlainText(text)
  {
    if v.Str? {
      BlankMeans(v.s);
      ControlMeans(Strip(v.s));
    }
  }

  /** A submitted line is read when its item is sold, its switch is a boolean or missing, and its text is usable. */
  lemma {:induction false} LineIsRead(raw: RawDelivery, shop: seq<Product>, d: Delivery)
    ensures ReadLine(raw, Allowed(shop)) == Some(d) <==>
              && raw.Line? && raw.id.TextId? && d.item == Strip(raw.id.text) && |d.item| <= 64 && Sells(shop, d.item)
              && (if raw.enabled.Some? then raw.enabled.value == Bool(d.enabled) else d.enabled)
              && raw.material.Some? && raw.material.value.Str? && d.material == Strip(raw.material.value.s)
              && !Blank(raw.material.value.s) && |d.material| <= 8000 && PlainText(d.material)
  {
    if raw.Line? {
      ItemIdMeans(raw.id, d.item);
      SellsMeans(shop, d.item);
      MaterialMeans(if raw.material.Some? then raw.material.value else Str(""), d.material);
    }
  }
}
