/**
 * Delivery configuration of backend/automation.py: entries bind one payload to
 * a group of items, the console reads them as one material per item, and two
 * different merges write that list back.
 */
module DeliveryModel {
  import opened Common
  import opened Json
  import opened PythonText

  const MAX_MATERIAL := 8000

  /** The `item_ids` field: absent or null, a list (of `str()` renderings), or something else. */
  datatype Ids = NoIds | Listed(ids: seq<string>) | OtherIds(raw: Json)

  /** One element of `types`.  A field is None when the key is absent. */
  datatype Entry =
    | NotObject(raw: Json)
    | Entry(itemIds: Ids, itemId: Option<string>, delivery: Option<string>, enabled: Option<Json>,
            payload: Option<Json>, material: Option<Json>, id: Option<string>, name: Option<string>,
            resourceMatch: Option<Json>, rest: map<string, Json>)

  const NO_ENTRY := Entry(NoIds, None, None, None, None, None, None, None, None, map[])

  /** A line of the console's list. */
  datatype Delivery = Delivery(item: string, enabled: bool, material: string)

  /** A product of the shop snapshot. */
  datatype Product = Product(id: string, title: string)

  predicate IsDigits(s: string) {
    s != [] && forall i :: 0 <= i < |s| ==> '0' <= s[i] <= '9'
  }

  /** `_snapshot_ids` */
  function Allowed(shop: seq<Product>): set<string> {
    set i | 0 <= i < |shop| && IsDigits(Strip(shop[i].id)) :: Strip(shop[i].id)
  }

  function StripAll(ids: seq<string>): seq<string> {
    seq(|ids|, i requires 0 <= i < |ids| => Strip(ids[i]))
  }

  /** The items an entry is bound to. */
  function BoundIds(e: Entry): seq<string> {
    if e.NotObject? then []
    else if e.itemIds.Listed? then StripAll(e.itemIds.ids)
    else if e.itemId.Some? then [Strip(e.itemId.value)]
    else []
  }

  predicate IsMaterial(e: Entry) {
    e.Entry? && e.delivery == Some("material")
  }

  function PayloadField(e: Entry, default: Json): Json
    requires e.Entry?
  {
    if e.payload.Some? then e.payload.value else if e.material.Some? then e.material.value else default
  }

  /** The material text of an entry that the list shows. */
  function Payload(e: Entry): Option<string> {
    if !IsMaterial(e) then None
    else
      var p := PayloadField(e, Str(""));
      if p.Str? && Strip(p.s) != "" then Some(p.s) else None
  }

  function Cut(s: string): string {
    if |s| <= MAX_MATERIAL then s else s[..MAX_MATERIAL]
  }

  predicate On(e: Entry)
    requires e.Entry?
  {
    e.enabled == None || e.enabled == Some(Bool(true))
  }

  /** The ids the list reads; a missing legacy id reads as the text of Python's None. */
  function ViewIds(e: Entry): seq<string>
    requires e.Entry?
  {
    if !e.itemIds.Listed? && e.itemId.None? then ["None"] else BoundIds(e)
  }

  function LinesOf(e: Entry): seq<Delivery> {
    if Payload(e).None? then []
    else seq(|ViewIds(e)|, i requires 0 <= i < |ViewIds(e)| => Delivery(ViewIds(e)[i], On(e), Cut(Payload(e).value)))
  }

  function Lines(types: seq<Entry>): seq<Delivery> {
    if types == [] then [] else LinesOf(types[0]) + Lines(types[1..])
  }

  /** The first line of every item that the shop has. */
  function Dedup(lines: seq<Delivery>, allowed: set<string>, seen: set<string>): seq<Delivery> {
    if lines == [] then []
    else if lines[0].item in allowed && lines[0].item !in seen then
      [lines[0]] + Dedup(lines[1..], allowed, seen + {lines[0].item})
    else Dedup(lines[1..], allowed, seen)
  }

  function View(types: seq<Entry>, allowed: set<string>): seq<Delivery> {
    Dedup(Lines(types), allowed, {})
  }

  /** The line of one item. */
  function LookUp(lines: seq<Delivery>, x: string): Option<Delivery> {
    if lines == [] then None else if lines[0].item == x then Some(lines[0]) else LookUp(lines[1..], x)
  }

  /** `_product_title` */
  function Title(shop: seq<Product>, x: string): string {
    if shop == [] then "未命名商品"
    else if shop[0].id == x then
      if shop[0].title == "" then "未命名商品"
      else if |shop[0].title| <= 160 then shop[0].title else shop[0].title[..160]
    else Title(shop[1..], x)
  }

  function IdCount(e: Entry): nat
    requires e.Entry?
  {
    if e.itemIds.Listed? then |e.itemIds.ids| else if e.itemId.Some? then 1 else 0
  }

  function OrElse(s: Option<string>, default: string): string {
    if s.Some? && s.value != "" then s.value else default
  }

  /** `_material_product_entry` */
  function NewEntry(source: Entry, x: string, payload: Json, enabled: bool, title: string): Entry
    requires source.Entry?
  {
    Entry(Listed([x]), None, Some("material"), Some(Bool(enabled)), Some(payload), None,
          Some(OrElse(if IdCount(source) == 1 then source.id else None, "basic-" + x)),
          Some(OrElse(source.name, title)), None, source.rest)
  }

  function Filter(ids: seq<string>, keep: string -> bool): seq<string> {
    if ids == [] then []
    else if keep(ids[0]) then [ids[0]] + Filter(ids[1..], keep)
    else Filter(ids[1..], keep)
  }

  function Remainder(e: Entry, kept: seq<string>): seq<Entry>
    requires e.Entry?
  {
    if kept == [] then [] else [e.(itemIds := Listed(kept), itemId := None)]
  }

  predicate Meets(ids: seq<string>, items: set<string>) {
    exists i :: 0 <= i < |ids| && ids[i] in items
  }

  // The batch merge: merge_material_product_updates.

  datatype Update = Update(item: string, enabled: bool, material: string)

  /** `by_id`; the items of a batch are distinct. */
  function Batch(updates: seq<Update>): map<string, Update> {
    map i | 0 <= i < |updates| && (forall j :: i < j < |updates| ==> updates[j].item != updates[i].item) ::
      updates[i].item := updates[i]
  }

  /** The ids the batch merge may split off; an entry without them is kept whole. */
  function SplitIds(e: Entry): Option<seq<string>> {
    if e.Entry? && (e.itemIds.Listed? || (e.itemIds.NoIds? && e.itemId.Some?)) then Some(BoundIds(e)) else None
  }

  predicate Stays(e: Entry, batch: map<string, Update>, x: string) {
    x !in batch || (!batch[x].enabled && !IsMaterial(e))
  }

  function Split(e: Entry, batch: map<string, Update>): seq<Entry> {
    if SplitIds(e).None? || !Meets(BoundIds(e), batch.Keys) then [e]
    else Remainder(e, Filter(BoundIds(e), x => Stays(e, batch, x)))
  }

  function Kept(types: seq<Entry>, batch: map<string, Update>): seq<Entry> {
    if types == [] then [] else Split(types[0], batch) + Kept(types[1..], batch)
  }

  predicate IsSource(e: Entry, batch: map<string, Update>, x: string) {
    SplitIds(e).Some? && x in BoundIds(e) && x in batch && (batch[x].enabled || IsMaterial(e))
  }

  /** The entry whose metadata the new entry of x takes over. */
  function Source(types: seq<Entry>, batch: map<string, Update>, x: string): Option<Entry> {
    if types == [] then None
    else if IsSource(types[0], batch, x) then Some(types[0])
    else Source(types[1..], batch, x)
  }

  /** The entry appended for one update, from the entry it takes over and the line shown for it. */
  function NewFrom(u: Update, source: Option<Entry>, current: Option<Delivery>, title: string): seq<Entry> {
    var base := if source.Some? && source.value.Entry? then source.value else NO_ENTRY;
    if u.enabled then [NewEntry(base, u.item, Str(u.material), true, title)]
    else if current.None? then []
    else [NewEntry(base, u.item, PayloadField(base, Str(current.value.material)), false, title)]
  }

  function Appended(types: seq<Entry>, u: Update, batch: map<string, Update>, shop: seq<Product>): seq<Entry> {
    NewFrom(u, Source(types, batch, u.item), LookUp(View(types, Allowed(shop)), u.item), Title(shop, u.item))
  }

  function Concat(parts: seq<seq<Entry>>): seq<Entry> {
    if parts == [] then [] else parts[0] + Concat(parts[1..])
  }

  function AppendAll(types: seq<Entry>, updates: seq<Update>, batch: map<string, Update>,
                     shop: seq<Product>): seq<Entry> {
    Concat(seq(|updates|, i requires 0 <= i < |updates| => Appended(types, updates[i], batch, shop)))
  }

  function MergeBatch(types: seq<Entry>, updates: seq<Update>, shop: seq<Product>): seq<Entry> {
    Kept(types, Batch(updates)) + AppendAll(types, updates, Batch(updates), shop)
  }

  /** Whether the preview counts an update as a change of the line it finds. */
  predicate Changed(u: Update, current: Option<Delivery>) {
    if u.enabled then current.None? || !current.value.enabled || current.value.material != u.material
    else current.Some? && current.value.enabled
  }

  function ChangeCount(updates: seq<Update>, view: seq<Delivery>): nat {
    if updates == [] then 0
    else (if Changed(updates[0], LookUp(view, updates[0].item)) then 1 else 0) + ChangeCount(updates[1..], view)
  }

  // The full save: merge_material_products.

  function Retain(e: Entry, items: set<string>): seq<Entry> {
    if e.NotObject? || IsMaterial(e) then []
    else if Meets(BoundIds(e), items) then Remainder(e, Filter(BoundIds(e), x => x !in items))
    else [e]
  }

  function RetainAll(types: seq<Entry>, items: set<string>): seq<Entry> {
    if types == [] then [] else Retain(types[0], items) + RetainAll(types[1..], items)
  }

  /** The first entry bound to x. */
  function FirstBound(types: seq<Entry>, x: string): Entry {
    if types == [] then NO_ENTRY
    else if types[0].Entry? && x in BoundIds(types[0]) then types[0]
    else FirstBound(types[1..], x)
  }

  lemma {:induction false} FirstBoundIsEntry(types: seq<Entry>, x: string)
    ensures FirstBound(types, x).Entry?
  {
    if types != [] {
      FirstBoundIsEntry(types[1..], x);
    }
  }

  function Items(ds: seq<Delivery>): set<string> {
    set i | 0 <= i < |ds| :: ds[i].item
  }

  function SaveOne(types: seq<Entry>, d: Delivery, shop: seq<Product>): Entry {
    FirstBoundIsEntry(types, d.item);
    NewEntry(FirstBound(types, d.item), d.item, Str(d.material), d.enabled, Title(shop, d.item))
  }

  function SaveAll(types: seq<Entry>, ds: seq<Delivery>, shop: seq<Product>): seq<Entry> {
    seq(|ds|, i requires 0 <= i < |ds| => SaveOne(types, ds[i], shop))
  }

  function MergeFull(types: seq<Entry>, ds: seq<Delivery>, shop: seq<Product>): seq<Entry> {
    RetainAll(types, Items(ds)) + SaveAll(types, ds, shop)
  }

  // What the validators promise of their results.

  predicate MaterialOk(s: string) {
    Strip(s) != "" && |s| <= MAX_MATERIAL
  }

  predicate ValidList(ds: seq<Delivery>, allowed: set<string>) {
    && (forall i :: 0 <= i < |ds| ==> ds[i].item in allowed && MaterialOk(ds[i].material))
    && (forall i, j :: 0 <= i < j < |ds| ==> ds[i].item != ds[j].item)
  }

  predicate ValidBatch(us: seq<Update>, allowed: set<string>) {
    && (forall i :: 0 <= i < |us| ==> us[i].item in allowed && (us[i].enabled ==> MaterialOk(us[i].material)))
    && (forall i, j :: 0 <= i < j < |us| ==> us[i].item != us[j].item)
  }
}

module DeliveryTheorems {
  import opened Common
  import opened Json
  import opened PythonText
  import opened DeliveryModel

  // Cleaning ids.

  lemma {:induction false} AllowedAreClean(shop: seq<Product>, x: string)
    requires x in Allowed(shop)
    ensures Strip(x) == x && x != "None"
  {
    var i :| 0 <= i < |shop| && x == Strip(shop[i].id);
    StripTwice(shop[i].id);
    assert IsDigits(x) && "None"[0] == 'N';
  }

  lemma {:induction false} BoundAreClean(e: Entry, x: string)
    requires x in BoundIds(e)
    ensures Strip(x) == x
  {
    if e.itemIds.Listed? {
      var i :| 0 <= i < |e.itemIds.ids| && x == Strip(e.itemIds.ids[i]);
      StripTwice(e.itemIds.ids[i]);
    } else {
      StripTwice(e.itemId.value);
    }
  }

  // Lookup in the list, entry by entry.

  /** The line an entry contributes for x. */
  function LineFor(e: Entry, x: string): Option<Delivery> {
    if Payload(e).Some? && x in BoundIds(e) then Some(Delivery(x, On(e), Cut(Payload(e).value))) else None
  }

  function Look(types: seq<Entry>, x: string): Option<Delivery> {
    if types == [] then None
    else if LineFor(types[0], x).Some? then LineFor(types[0], x)
    else Look(types[1..], x)
  }

  lemma {:induction false} LookUpJoin(a: seq<Delivery>, b: seq<Delivery>, x: string)
    ensures LookUp(a + b, x) == if LookUp(a, x).Some? then LookUp(a, x) else LookUp(b, x)
  {
    if a == [] {
      assert a + b == b;
    } else {
      assert (a + b)[1..] == a[1..] + b;
      LookUpJoin(a[1..], b, x);
    }
  }

  lemma {:induction false} LookUpFirst(lines: seq<Delivery>, x: string)
    ensures LookUp(lines, x).Some? <==> exists i :: 0 <= i < |lines| && lines[i].item == x
    ensures LookUp(lines, x).Some? ==> LookUp(lines, x).value in lines && LookUp(lines, x).value.item == x
  {
    if lines != [] {
      LookUpFirst(lines[1..], x);
      if i :| 0 < i < |lines| && lines[i].item == x {
        assert lines[1..][i - 1].item == x;
      }
    }
  }

  lemma {:induction false} LookUpEntry(e: Entry, x: string)
    requires x != "None"
    ensures LookUp(LinesOf(e), x) == LineFor(e, x)
  {
    LookUpFirst(LinesOf(e), x);
    if Payload(e).Some? {
      if x in BoundIds(e) {
        var i :| 0 <= i < |ViewIds(e)| && ViewIds(e)[i] == x;
        assert LinesOf(e)[i].item == x;
      }
    }
  }

  lemma {:induction false} LookUpLines(types: seq<Entry>, x: string)
    requires x != "None"
    ensures LookUp(Lines(types), x) == Look(types, x)
  {
    if types != [] {
      LookUpEntry(types[0], x);
      LookUpLines(types[1..], x);
      LookUpJoin(LinesOf(types[0]), Lines(types[1..]), x);
    }
  }

  lemma {:induction false} LookUpDedup(lines: seq<Delivery>, allowed: set<string>, seen: set<string>, x: string)
    ensures LookUp(Dedup(lines, allowed, seen), x) == if x in allowed && x !in seen then LookUp(lines, x) else None
  {
    if lines != [] {
      if lines[0].item in allowed && lines[0].item !in seen {
        LookUpDedup(lines[1..], allowed, seen + {lines[0].item}, x);
        assert Dedup(lines, allowed, seen)[1..] == Dedup(lines[1..], allowed, seen + {lines[0].item});
      } else {
        LookUpDedup(lines[1..], allowed, seen, x);
      }
    }
  }

  /** The list shows, for each item of the shop, the first entry that can be read. */
  lemma {:induction false} ViewShows(types: seq<Entry>, shop: seq<Product>, x: string)
    ensures LookUp(View(types, Allowed(shop)), x) == if x in Allowed(shop) then Look(types, x) else None
  {
    LookUpDedup(Lines(types), Allowed(shop), {}, x);
    if x in Allowed(shop) {
      AllowedAreClean(shop, x);
      LookUpLines(types, x);
    }
  }

  lemma {:induction false} LookJoin(a: seq<Entry>, b: seq<Entry>, x: string)
    ensures Look(a + b, x) == if Look(a, x).Some? then Look(a, x) else Look(b, x)
  {
    if a == [] {
      assert a + b == b;
    } else {
      assert (a + b)[1..] == a[1..] + b;
      LookJoin(a[1..], b, x);
    }
  }

  // Bindings of one item.

  /** Everything an entry says about the items it is bound to. */
  function Meaning(e: Entry): Entry {
    if e.NotObject? then e else e.(itemIds := NoIds, itemId := None)
  }

  function Occurrences(ids: seq<string>, x: string, m: Entry): seq<Entry> {
    if ids == [] then [] else (if ids[0] == x then [m] else []) + Occurrences(ids[1..], x, m)
  }

  /** What x is bound to, in order; its length is the number of times x is bound. */
  function Bindings(types: seq<Entry>, x: string): seq<Entry> {
    if types == [] then [] else Occurrences(BoundIds(types[0]), x, Meaning(types[0])) + Bindings(types[1..], x)
  }

  function WithoutMaterial(ms: seq<Entry>): seq<Entry> {
    if ms == [] then [] else (if IsMaterial(ms[0]) then [] else [ms[0]]) + WithoutMaterial(ms[1..])
  }

  lemma {:induction false} BindingsJoin(a: seq<Entry>, b: seq<Entry>, x: string)
    ensures Bindings(a + b, x) == Bindings(a, x) + Bindings(b, x)
  {
    if a == [] {
      assert a + b == b;
    } else {
      assert (a + b)[1..] == a[1..] + b;
      BindingsJoin(a[1..], b, x);
    }
  }

  lemma {:induction false} WithoutMaterialJoin(a: seq<Entry>, b: seq<Entry>)
    ensures WithoutMaterial(a + b) == WithoutMaterial(a) + WithoutMaterial(b)
  {
    if a == [] {
      assert a + b == b;
    } else {
      assert (a + b)[1..] == a[1..] + b;
      WithoutMaterialJoin(a[1..], b);
    }
  }

  lemma {:induction false} OccurrencesOf(ids: seq<string>, x: string, m: Entry)
    ensures x !in ids <==> Occurrences(ids, x, m) == []
    ensures WithoutMaterial(Occurrences(ids, x, m)) == if IsMaterial(m) then [] else Occurrences(ids, x, m)
  {
    if ids != [] {
      OccurrencesOf(ids[1..], x, m);
      WithoutMaterialJoin(if ids[0] == x then [m] else [], Occurrences(ids[1..], x, m));
    }
  }

  lemma {:induction false} OccurrencesFilter(ids: seq<string>, keep: string -> bool, x: string, m: Entry)
    ensures Occurrences(Filter(ids, keep), x, m) == if keep(x) then Occurrences(ids, x, m) else []
    ensures x in Filter(ids, keep) <==> x in ids && keep(x)
  {
    if ids != [] {
      OccurrencesFilter(ids[1..], keep, x, m);
    }
  }

  lemma {:induction false} CleanAgain(ids: seq<string>)
    requires forall x :: x in ids ==> Strip(x) == x
    ensures StripAll(ids) == ids
  {
  }

  /** An entry with some of its ids filtered out. */
  lemma {:induction false} RemainderBinds(e: Entry, keep: string -> bool)
    requires e.Entry?
    ensures var kept := Filter(BoundIds(e), keep);
            kept != [] ==>
              var r := Remainder(e, kept)[0];
              BoundIds(r) == kept && Meaning(r) == Meaning(e) && IsMaterial(r) == IsMaterial(e)
                  && Payload(r) == Payload(e)
  {
    var kept := Filter(BoundIds(e), keep);
    forall x | x in kept ensures Strip(x) == x {
      OccurrencesFilter(BoundIds(e), keep, x, e);
      BoundAreClean(e, x);
    }
    CleanAgain(kept);
  }

  lemma {:induction false} RemainderBindings(e: Entry, keep: string -> bool, x: string)
    requires e.Entry?
    ensures Bindings(Remainder(e, Filter(BoundIds(e), keep)), x) ==
              if keep(x) then Occurrences(BoundIds(e), x, Meaning(e)) else []
  {
    var kept := Filter(BoundIds(e), keep);
    RemainderBinds(e, keep);
    OccurrencesFilter(BoundIds(e), keep, x, Meaning(e));
    if kept != [] {
      BindingsOfOne(Remainder(e, kept)[0], x);
    }
  }

  lemma {:induction false} RemainderLooks(e: Entry, keep: string -> bool, x: string)
    requires e.Entry?
    ensures Look(Remainder(e, Filter(BoundIds(e), keep)), x) == if keep(x) then LineFor(e, x) else None
  {
    var kept := Filter(BoundIds(e), keep);
    RemainderBinds(e, keep);
    OccurrencesFilter(BoundIds(e), keep, x, Meaning(e));
    if kept != [] {
      LookOfOne(Remainder(e, kept)[0], x);
    }
  }

  lemma {:induction false} BindingsOfOne(e: Entry, x: string)
    ensures Bindings([e], x) == Occurrences(BoundIds(e), x, Meaning(e))
  {
    assert [e][1..] == [] && Occurrences(BoundIds(e), x, Meaning(e)) + [] == Occurrences(BoundIds(e), x, Meaning(e));
  }

  lemma {:induction false} LookOfOne(e: Entry, x: string)
    ensures Look([e], x) == LineFor(e, x)
  {
    assert [e][1..] == [];
  }

  lemma {:induction false} NewEntryBinds(source: Entry, y: string, payload: Json, enabled: bool, title: string,
                                         x: string)
    requires source.Entry? && Strip(y) == y
    ensures var n := NewEntry(source, y, payload, enabled, title);
            && Bindings([n], x) == (if x == y then [Meaning(n)] else [])
            && Look([n], x) == if x == y && payload.Str? && Strip(payload.s) != ""
                               then Some(Delivery(x, enabled, Cut(payload.s))) else None
  {
    var n := NewEntry(source, y, payload, enabled, title);
    assert BoundIds(n) == [y];
    assert Bindings([n], x) == Occurrences([y], x, Meaning(n)) + [];
    assert [n][1..] == [];
  }

  // The full save.

  lemma {:induction false} RetainOne(e: Entry, items: set<string>, x: string)
    ensures Lines(Retain(e, items)) == []
    ensures x !in items ==> Bindings(Retain(e, items), x) == WithoutMaterial(Occurrences(BoundIds(e), x, Meaning(e)))
  {
    OccurrencesOf(BoundIds(e), x, Meaning(e));
    if e.Entry? && !IsMaterial(e) {
      if Meets(BoundIds(e), items) {
        RemainderBinds(e, y => y !in items);
        RemainderBindings(e, y => y !in items, x);
      } else {
        assert [e][1..] == [];
      }
    }
  }

  lemma {:induction false} LinesJoin(a: seq<Entry>, b: seq<Entry>)
    ensures Lines(a + b) == Lines(a) + Lines(b)
  {
    if a == [] {
      assert a + b == b;
    } else {
      assert (a + b)[1..] == a[1..] + b;
      LinesJoin(a[1..], b);
    }
  }

  lemma {:induction false} RetainedOnly(types: seq<Entry>, items: set<string>, x: string)
    ensures Lines(RetainAll(types, items)) == []
    ensures x !in items ==> Bindings(RetainAll(types, items), x) == WithoutMaterial(Bindings(types, x))
  {
    if types != [] {
      RetainOne(types[0], items, x);
      RetainedOnly(types[1..], items, x);
      LinesJoin(Retain(types[0], items), RetainAll(types[1..], items));
      BindingsJoin(Retain(types[0], items), RetainAll(types[1..], items), x);
      WithoutMaterialJoin(Occurrences(BoundIds(types[0]), x, Meaning(types[0])), Bindings(types[1..], x));
    }
  }

  lemma {:induction false} SavedLine(types: seq<Entry>, d: Delivery, shop: seq<Product>)
    requires d.item in Allowed(shop) && MaterialOk(d.material)
    ensures LinesOf(SaveOne(types, d, shop)) == [d] && BoundIds(SaveOne(types, d, shop)) == [d.item]
  {
    AllowedAreClean(shop, d.item);
    var e := SaveOne(types, d, shop);
    assert BoundIds(e) == [d.item] && ViewIds(e) == [d.item] && Payload(e) == Some(d.material) && On(e) == d.enabled;
    assert |LinesOf(e)| == 1 && LinesOf(e)[0] == Delivery(d.item, d.enabled, Cut(d.material));
  }

  lemma {:induction false} LinesOneByOne(es: seq<Entry>, ds: seq<Delivery>)
    requires |es| == |ds| && forall i :: 0 <= i < |es| ==> LinesOf(es[i]) == [ds[i]]
    ensures Lines(es) == ds
  {
    if es != [] {
      LinesOneByOne(es[1..], ds[1..]);
      assert ds == [ds[0]] + ds[1..];
    }
  }

  lemma {:induction false} Unbound(es: seq<Entry>, x: string)
    requires forall i :: 0 <= i < |es| ==> x !in BoundIds(es[i])
    ensures Bindings(es, x) == []
  {
    if es != [] {
      Unbound(es[1..], x);
      OccurrencesOf(BoundIds(es[0]), x, Meaning(es[0]));
    }
  }

  lemma {:induction false} SavedLines(types: seq<Entry>, ds: seq<Delivery>, shop: seq<Product>)
    requires ValidList(ds, Allowed(shop))
    ensures Lines(SaveAll(types, ds, shop)) == ds
  {
    var saved := SaveAll(types, ds, shop);
    forall i | 0 <= i < |ds| ensures LinesOf(saved[i]) == [ds[i]] {
      SavedLine(types, ds[i], shop);
    }
    LinesOneByOne(saved, ds);
  }

  lemma {:induction false} SavedBindings(types: seq<Entry>, ds: seq<Delivery>, shop: seq<Product>, x: string)
    requires ValidList(ds, Allowed(shop)) && x !in Items(ds)
    ensures Bindings(SaveAll(types, ds, shop), x) == []
  {
    var saved := SaveAll(types, ds, shop);
    forall i | 0 <= i < |ds| ensures x !in BoundIds(saved[i]) {
      SavedLine(types, ds[i], shop);
      assert ds[i].item in Items(ds);
    }
    Unbound(saved, x);
  }

  lemma {:induction false} DedupKeepsDistinct(ds: seq<Delivery>, allowed: set<string>, seen: set<string>)
    requires forall i :: 0 <= i < |ds| ==> ds[i].item in allowed && ds[i].item !in seen
    requires forall i, j :: 0 <= i < j < |ds| ==> ds[i].item != ds[j].item
    ensures Dedup(ds, allowed, seen) == ds
  {
    if ds != [] {
      DedupKeepsDistinct(ds[1..], allowed, seen + {ds[0].item});
    }
  }

  /** Saving a full list and reading it back gives that list, in order. */
  lemma {:induction false} SavedListReadsBack(types: seq<Entry>, ds: seq<Delivery>, shop: seq<Product>)
    requires ValidList(ds, Allowed(shop))
    ensures View(MergeFull(types, ds, shop), Allowed(shop)) == ds
  {
    var kept, saved := RetainAll(types, Items(ds)), SaveAll(types, ds, shop);
    assert Lines(kept + saved) == ds by {
      RetainedOnly(types, Items(ds), "");
      SavedLines(types, ds, shop);
      LinesJoin(kept, saved);
    }
    DedupKeepsDistinct(ds, Allowed(shop), {});
  }

  /** An item not in the saved list keeps exactly its bindings that are not material, in order. */
  lemma {:induction false} SaveKeepsOtherKinds(types: seq<Entry>, ds: seq<Delivery>, shop: seq<Product>, x: string)
    requires ValidList(ds, Allowed(shop)) && x !in Items(ds)
    ensures Bindings(MergeFull(types, ds, shop), x) == WithoutMaterial(Bindings(types, x))
  {
    RetainedOnly(types, Items(ds), x);
    SavedBindings(types, ds, shop, x);
    BindingsJoin(RetainAll(types, Items(ds)), SaveAll(types, ds, shop), x);
  }
}
