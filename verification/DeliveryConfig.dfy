/** The loops of backend/automation.py that read, preview, merge and validate the delivery configuration. */
module DeliveryConfig {
  import opened Common
  import opened Json
  import opened PythonText
  import opened DeliveryModel
  import opened DeliveryTheorems

  datatype Types = NoTypes | TypeList(entries: seq<Entry>) | OtherTypes

  /** The stored configuration; `fields` are its keys other than `types`. */
  datatype Products = NoFile | NotDict | Dict(types: Types, fields: map<string, Json>)

  /** What the list reads. */
  function ViewEntries(p: Products): seq<Entry> {
    if p.Dict? && p.types.TypeList? then p.types.entries else []
  }

  /** A merge refuses a file it would have to reset. */
  predicate Refused(p: Products) {
    p.NotDict? || (p.Dict? && p.types.OtherTypes?)
  }

  function Stored(p: Products, types: seq<Entry>): Products {
    var fields := if p.Dict? then p.fields else map[];
    var version := if "version" in fields then fields["version"] else Int(1);
    Dict(TypeList(types), (fields - {"_ops_receipt"})["version" := version])
  }

  lemma {:induction false} DedupStep(all: seq<Delivery>, i: nat, later: seq<Delivery>, allowed: set<string>,
                                     seen: set<string>)
    requires i < |all|
    ensures Dedup(all[i..] + later, allowed, seen) ==
              if all[i].item in allowed && all[i].item !in seen
              then [all[i]] + Dedup(all[i + 1..] + later, allowed, seen + {all[i].item})
              else Dedup(all[i + 1..] + later, allowed, seen)
  {
    assert (all[i..] + later)[0] == all[i] && (all[i..] + later)[1..] == all[i + 1..] + later;
  }

  /** The inner loop of the list, over the ids of one entry; `later` are the lines still to come. */
  method ShowIds(ids: seq<string>, enabled: bool, text: string, allowed: set<string>, seen: set<string>,
                 ghost all: seq<Delivery>, ghost later: seq<Delivery>)
    returns (lines: seq<Delivery>, seen': set<string>)
    requires |all| == |ids| && forall i :: 0 <= i < |ids| ==> all[i] == Delivery(ids[i], enabled, text)
    ensures Dedup(all + later, allowed, seen) == lines + Dedup(later, allowed, seen')
  {
    lines, seen' := [], seen;
    ghost var total := Dedup(all + later, allowed, seen);
    assert all[0..] == all;
    for i := 0 to |ids|
      invariant total == lines + Dedup(all[i..] + later, allowed, seen')
    {
      DedupStep(all, i, later, allowed, seen');
      if ids[i] in allowed && ids[i] !in seen' {
        lines, seen' := lines + [Delivery(ids[i], enabled, text)], seen' + {ids[i]};
      }
    }
    assert all[|ids|..] + later == later;
  }

  method ShowEntry(e: Entry, allowed: set<string>, seen: set<string>, ghost later: seq<Delivery>)
    returns (lines: seq<Delivery>, seen': set<string>)
    ensures Dedup(LinesOf(e) + later, allowed, seen) == lines + Dedup(later, allowed, seen')
  {
    if Payload(e).None? {
      assert LinesOf(e) + later == later;
      return [], seen;
    }
    lines, seen' := ShowIds(ViewIds(e), On(e), Cut(Payload(e).value), allowed, seen, LinesOf(e), later);
  }

  /** `deliveries_from_products` */
  method DeliveriesFromProducts(p: Products, shop: seq<Product>) returns (output: seq<Delivery>)
    ensures output == View(ViewEntries(p), Allowed(shop))
  {
    var rest, allowed, seen := ViewEntries(p), Allowed(shop), {};
    output := [];
    while rest != []
      invariant View(ViewEntries(p), allowed) == output + Dedup(Lines(rest), allowed, seen)
      decreases |rest|
    {
      var lines, seen' := ShowEntry(rest[0], allowed, seen, Lines(rest[1..]));
      output, seen, rest := output + lines, seen', rest[1..];
    }
  }

  lemma {:induction false} LookUpLast(lines: seq<Delivery>, d: Delivery, x: string)
    requires forall i :: 0 <= i < |lines| ==> lines[i].item != d.item
    ensures LookUp(lines + [d], x) == if x == d.item then Some(d) else LookUp(lines, x)
  {
    LookUpJoin(lines, [d], x);
    LookUpFirst(lines, x);
    assert [d][1..] == [];
  }

  ghost predicate Distinct(ds: seq<Delivery>, seen: set<string>) {
    && (forall i :: 0 <= i < |ds| ==> ds[i].item !in seen)
    && (forall i, j :: 0 <= i < j < |ds| ==> ds[i].item != ds[j].item)
  }

  lemma {:induction false} DistinctMore(d: Delivery, tail: seq<Delivery>, seen: set<string>)
    requires d.item !in seen && Distinct(tail, seen + {d.item})
    ensures Distinct([d] + tail, seen)
  {
  }

  lemma {:induction false} DedupIsDistinct(lines: seq<Delivery>, allowed: set<string>, seen: set<string>)
    ensures Distinct(Dedup(lines, allowed, seen), seen)
  {
    if lines != [] {
      if lines[0].item in allowed && lines[0].item !in seen {
        var seen' := seen + {lines[0].item};
        DedupIsDistinct(lines[1..], allowed, seen');
        DistinctMore(lines[0], Dedup(lines[1..], allowed, seen'), seen);
      } else {
        DedupIsDistinct(lines[1..], allowed, seen);
      }
    }
  }

  /** The list as the dictionary `current`. */
  method IndexView(view: seq<Delivery>) returns (current: map<string, Delivery>)
    requires Distinct(view, {})
    ensures IsIndex(current, view)
  {
    current := map[];
    for i := 0 to |view|
      invariant forall x :: Get(current, x) == LookUp(view[..i], x)
    {
      assert view[..i + 1] == view[..i] + [view[i]];
      var current' := current[view[i].item := view[i]];
      forall x ensures Get(current', x) == LookUp(view[..i + 1], x) {
        LookUpLast(view[..i], view[i], x);
      }
      current := current';
    }
    assert view[..|view|] == view;
  }

  method ReadCurrent(p: Products, shop: seq<Product>) returns (current: map<string, Delivery>)
    ensures IsIndex(current, View(ViewEntries(p), Allowed(shop)))
  {
    var view := DeliveriesFromProducts(p, shop);
    DedupIsDistinct(Lines(ViewEntries(p)), Allowed(shop), {});
    current := IndexView(view);
  }

  /** `material_batch_preview`: selected, changed and unchanged counts. */
  method MaterialBatchPreview(p: Products, updates: seq<Update>, shop: seq<Product>)
    returns (selected: nat, changes: nat, same: int)
    ensures selected == |updates| && changes == ChangeCount(updates, View(ViewEntries(p), Allowed(shop)))
    ensures same == selected - changes
  {
    var current := ReadCurrent(p, shop);
    ghost var view := View(ViewEntries(p), Allowed(shop));
    var rest := updates;
    changes := 0;
    while rest != []
      invariant changes + ChangeCount(rest, view) == ChangeCount(updates, view)
      decreases |rest|
    {
      assert Get(current, rest[0].item) == LookUp(view, rest[0].item);
      if Changed(rest[0], Get(current, rest[0].item)) {
        changes := changes + 1;
      }
      rest := rest[1..];
    }
    selected, same := |updates|, |updates| - changes;
  }

  /** The loop that records the first entry of every selected id. */
  method AddSources(sources: map<string, Entry>, e: Entry, batch: map<string, Update>)
    returns (sources': map<string, Entry>)
    requires SplitIds(e).Some?
    ensures forall x :: Get(sources', x) == if x in sources then Some(sources[x])
              else if IsSource(e, batch, x) then Some(e) else None
  {
    sources' := sources;
    var ids := BoundIds(e);
    for i := 0 to |ids|
      invariant forall x :: Get(sources', x) ==
                  if x in sources then Some(sources[x])
                  else if x in ids[..i] && IsSource(e, batch, x) then Some(e) else None
    {
      assert ids[..i + 1] == ids[..i] + [ids[i]];
      if ids[i] in batch && (batch[ids[i]].enabled || IsMaterial(e)) && ids[i] !in sources' {
        sources' := sources'[ids[i] := e];
      }
    }
    assert ids[..|ids|] == ids;
  }

  /** The sources of all entries: those recorded so far, and then those of the entries still to come. */
  ghost predicate SourcesFrom(types: seq<Entry>, rest: seq<Entry>, batch: map<string, Update>,
                              sources: map<string, Entry>) {
    forall x :: Source(types, batch, x) == if x in sources then Some(sources[x]) else Source(rest, batch, x)
  }

  lemma {:induction false} SourcesAdd(types: seq<Entry>, rest: seq<Entry>, batch: map<string, Update>,
                                      sources: map<string, Entry>, sources': map<string, Entry>)
    requires rest != [] && SourcesFrom(types, rest, batch, sources)
    requires forall x :: Get(sources', x) ==
               if x in sources then Some(sources[x]) else if IsSource(rest[0], batch, x) then Some(rest[0]) else None
    ensures SourcesFrom(types, rest[1..], batch, sources')
  {
    forall x ensures Source(types, batch, x) == if x in sources' then Some(sources'[x])
        else Source(rest[1..], batch, x) {
      assert Get(sources', x) ==
             if x in sources then Some(sources[x]) else if IsSource(rest[0], batch, x) then Some(rest[0]) else None;
    }
  }

  /** One existing entry of the batch merge. */
  method SplitEntry(raw: Entry, batch: map<string, Update>, sources: map<string, Entry>)
    returns (kept: seq<Entry>, sources': map<string, Entry>)
    ensures kept == Split(raw, batch)
    ensures forall x :: Get(sources', x) ==
              if x in sources then Some(sources[x]) else if IsSource(raw, batch, x) then Some(raw) else None
  {
    if SplitIds(raw).None? || !Meets(BoundIds(raw), batch.Keys) {
      return [raw], sources;
    }
    sources' := AddSources(sources, raw, batch);
    kept := Remainder(raw, Filter(BoundIds(raw), x => Stays(raw, batch, x)));
  }

  /** The loop over the existing entries of the batch merge. */
  method SplitEntries(types: seq<Entry>, batch: map<string, Update>)
    returns (retained: seq<Entry>, sources: map<string, Entry>)
    ensures retained == Kept(types, batch)
    ensures SourcesFrom(types, [], batch, sources)
  {
    retained, sources := [], map[];
    var rest := types;
    ghost var total := Kept(types, batch);
    while rest != []
      invariant total == retained + Kept(rest, batch)
      invariant SourcesFrom(types, rest, batch, sources)
      decreases |rest|
    {
      var kept, sources' := SplitEntry(rest[0], batch, sources);
      SourcesAdd(types, rest, batch, sources, sources');
      retained, sources, rest := retained + kept, sources', rest[1..];
    }
  }

  lemma {:induction false} SourceFound(types: seq<Entry>, batch: map<string, Update>, sources: map<string, Entry>,
                                       x: string)
    requires SourcesFrom(types, [], batch, sources)
    ensures Get(sources, x) == Source(types, batch, x)
  {
    assert Source([], batch, x) == None;
  }

  /** `current` is the list, by item. */
  ghost predicate IsIndex(current: map<string, Delivery>, view: seq<Delivery>) {
    forall x :: Get(current, x) == LookUp(view, x)
  }

  lemma {:induction false} ConcatLast(parts: seq<seq<Entry>>, last: seq<Entry>)
    ensures Concat(parts + [last]) == Concat(parts) + last
  {
    if parts == [] {
      assert [last][1..] == [];
    } else {
      assert (parts + [last])[1..] == parts[1..] + [last];
      ConcatLast(parts[1..], last);
    }
  }

  /** The entry of one update. */
  function AppendedBy(u: Update, sources: map<string, Entry>, current: map<string, Delivery>,
                      shop: seq<Product>): seq<Entry> {
    NewFrom(u, Get(sources, u.item), Get(current, u.item), Title(shop, u.item))
  }

  /** The loop over the updates. */
  method AppendUpdates(updates: seq<Update>, shop: seq<Product>, sources: map<string, Entry>,
                       current: map<string, Delivery>)
    returns (entries: seq<Entry>)
    ensures entries == Concat(seq(|updates|,
                                  i requires 0 <= i < |updates| => AppendedBy(updates[i], sources, current, shop)))
  {
    entries := [];
    ghost var parts := seq(|updates|, i requires 0 <= i < |updates| => AppendedBy(updates[i], sources, current, shop));
    for i := 0 to |updates|
      invariant entries == Concat(parts[..i])
    {
      var u, x := updates[i], updates[i].item;
      var base := if x in sources && sources[x].Entry? then sources[x] else NO_ENTRY;
      ConcatLast(parts[..i], parts[i]);
      assert parts[..i + 1] == parts[..i] + [parts[i]];
      if u.enabled {
        entries := entries + [NewEntry(base, x, Str(u.material), true, Title(shop, x))];
      } else if x in current {
        entries := entries + [NewEntry(base, x, PayloadField(base, Str(current[x].material)), false, Title(shop, x))];
      }
    }
    assert parts[..|updates|] == parts;
  }

  lemma {:induction false} AppendedByIndex(types: seq<Entry>, updates: seq<Update>, batch: map<string, Update>,
                                           shop: seq<Product>, sources: map<string, Entry>,
                                           current: map<string, Delivery>)
    requires SourcesFrom(types, [], batch, sources) && IsIndex(current, View(types, Allowed(shop)))
    ensures Concat(seq(|updates|, i requires 0 <= i < |updates| => AppendedBy(updates[i], sources, current, shop))) ==
            AppendAll(types, updates, batch, shop)
  {
    var one := seq(|updates|, i requires 0 <= i < |updates| => AppendedBy(updates[i], sources, current, shop));
    var two := seq(|updates|, i requires 0 <= i < |updates| => Appended(types, updates[i], batch, shop));
    forall i | 0 <= i < |updates| ensures one[i] == two[i] {
      SourceFound(types, batch, sources, updates[i].item);
      assert Get(current, updates[i].item) == LookUp(View(types, Allowed(shop)), updates[i].item);
    }
    assert one == two;
  }

  /** `merge_material_product_updates`; None is the refusal. */
  method MergeMaterialProductUpdates(p: Products, updates: seq<Update>, shop: seq<Product>)
    returns (out: Option<Products>)
    ensures out == if Refused(p) then None else Some(Stored(p, MergeBatch(ViewEntries(p), updates, shop)))
  {
    if Refused(p) {
      return None;
    }
    var types, batch := ViewEntries(p), Batch(updates);
    var retained, sources := SplitEntries(types, batch);
    var current := ReadCurrent(p, shop);
    var entries := AppendUpdates(updates, shop, sources, current);
    AppendedByIndex(types, updates, batch, shop, sources, current);
    out := Some(Stored(p, retained + entries));
  }

  /** One entry of the full save: what is retained of it, and the sources it is the first of. */
  method RetainEntry(raw: Entry, items: set<string>, sources: map<string, Entry>)
    returns (retained: seq<Entry>, sources': map<string, Entry>)
    requires raw.Entry?
    ensures retained == Retain(raw, items)
    ensures forall x :: x in items ==>
              Get(sources', x) == if x in sources then Some(sources[x]) else if x in BoundIds(raw) then Some(raw)
                  else None
  {
    sources' := sources;
    var ids := BoundIds(raw);
    for i := 0 to |ids|
      invariant forall x :: x in items ==>
                  Get(sources', x) == if x in sources then Some(sources[x]) else if x in ids[..i] then Some(raw)
                      else None
    {
      assert ids[..i + 1] == ids[..i] + [ids[i]];
      if ids[i] in items && ids[i] !in sources' {
        sources' := sources'[ids[i] := raw];
      }
    }
    assert ids[..|ids|] == ids;
    if IsMaterial(raw) {
      retained := [];
    } else if Meets(ids, items) {
      retained := Remainder(raw, Filter(ids, x => x !in items));
    } else {
      retained := [raw];
    }
  }

  /** The loop over the existing entries of the full save; an element that is not an object refuses the save. */
  method RetainEntries(types: seq<Entry>, items: set<string>)
    returns (ok: bool, retained: seq<Entry>, sources: map<string, Entry>)
    ensures ok <==> forall i :: 0 <= i < |types| ==> types[i].Entry?
    ensures ok ==> retained == RetainAll(types, items)
    ensures ok ==> forall x :: x in items ==> FirstBound(types, x) == if x in sources then sources[x] else NO_ENTRY
  {
    ok, retained, sources := true, [], map[];
    var rest := types;
    ghost var all := RetainAll(types, items);
    while rest != []
      invariant (forall i :: 0 <= i < |types| ==> types[i].Entry?) <==> (forall i :: 0 <= i < |rest| ==> rest[i].Entry?)
      invariant all == retained + RetainAll(rest, items)
      invariant forall x :: x in items ==>
                FirstBound(types, x) == if x in sources then sources[x] else FirstBound(rest, x)
      decreases |rest|
    {
      if rest[0].NotObject? {
        return false, [], map[];
      }
      var kept, sources' := RetainEntry(rest[0], items, sources);
      FirstBoundStep(rest, items, sources, sources');
      HeadAndTail(rest);
      retained, sources, rest := retained + kept, sources', rest[1..];
    }
  }

  lemma {:induction false} FirstBoundStep(rest: seq<Entry>, items: set<string>, sources: map<string, Entry>,
                                          sources': map<string, Entry>)
    requires rest != [] && rest[0].Entry?
    requires forall x :: x in items ==>
               Get(sources', x) == if x in sources then Some(sources[x])
                   else if x in BoundIds(rest[0]) then Some(rest[0]) else None
    ensures forall x :: x in items ==>
              (if x in sources then sources[x] else FirstBound(rest, x)) ==
              (if x in sources' then sources'[x] else FirstBound(rest[1..], x))
  {
    forall x | x in items
      ensures (if x in sources then sources[x] else FirstBound(rest, x)) ==
              (if x in sources' then sources'[x] else FirstBound(rest[1..], x))
    {
      assert Get(sources', x) == if x in sources then Some(sources[x])
                else if x in BoundIds(rest[0]) then Some(rest[0]) else None;
    }
  }

  lemma {:induction false} HeadAndTail(rest: seq<Entry>)
    requires rest != [] && rest[0].Entry?
    ensures (forall i :: 0 <= i < |rest| ==> rest[i].Entry?) <==>
              (forall i :: 0 <= i < |rest| - 1 ==> rest[1..][i].Entry?)
  {
    assert rest == [rest[0]] + rest[1..];
  }

  method SaveEntries(types: seq<Entry>, ds: seq<Delivery>, shop: seq<Product>, sources: map<string, Entry>)
    returns (entries: seq<Entry>)
    requires forall x :: x in Items(ds) ==> FirstBound(types, x) == if x in sources then sources[x] else NO_ENTRY
    ensures entries == SaveAll(types, ds, shop)
  {
    entries := [];
    for i := 0 to |ds|
      invariant |entries| == i && forall j :: 0 <= j < i ==> entries[j] == SaveOne(types, ds[j], shop)
    {
      assert ds[i].item in Items(ds);
      var source := if ds[i].item in sources then sources[ds[i].item] else NO_ENTRY;
      FirstBoundIsEntry(types, ds[i].item);
      entries := entries + [NewEntry(source, ds[i].item, Str(ds[i].material), ds[i].enabled, Title(shop, ds[i].item))];
    }
  }

  /** `merge_material_products` */
  method MergeMaterialProducts(p: Products, ds: seq<Delivery>, shop: seq<Product>) returns (out: Option<Products>)
    ensures out.None? <==> Refused(p) || exists i :: 0 <= i < |ViewEntries(p)| && ViewEntries(p)[i].NotObject?
    ensures out.Some? ==> out.value == Stored(p, MergeFull(ViewEntries(p), ds, shop))
  {
    if Refused(p) {
      return None;
    }
    var ok, retained, sources := RetainEntries(ViewEntries(p), Items(ds));
    if !ok {
      return None;
    }
    var entries := SaveEntries(ViewEntries(p), ds, shop, sources);
    out := Some(Stored(p, retained + entries));
  }

  // Validation.

  /** A submitted id: a boolean, or the `str()` rendering of anything else. */
  datatype RawId = BoolId | TextId(text: string)

  /** One submitted line; a field is None when the key is absent. */
  datatype RawDelivery = NotALine | Line(id: RawId, enabled: Option<Json>, material: Option<Json>)

  /** `_safe_item_id` */
  function SafeItemId(id: RawId): Option<string> {
    if id.TextId? && IsDigits(Strip(id.text)) && |Strip(id.text)| <= 64 then Some(Strip(id.text)) else None
  }

  /** `_clean_text` with the material limit. */
  function CleanMaterial(v: Json): Option<string> {
    if v.Str? && Strip(v.s) != "" && |Strip(v.s)| <= MAX_MATERIAL && !HasControl(Strip(v.s)) then Some(Strip(v.s))
    else None
  }

  /** A submitted line on its own. */
  function ReadLine(raw: RawDelivery, allowed: set<string>): Option<Delivery> {
    if raw.NotALine? then None
    else
      var id, enabled := SafeItemId(raw.id), if raw.enabled.Some? then raw.enabled.value else Bool(true);
      var material := CleanMaterial(if raw.material.Some? then raw.material.value else Str(""));
      if id.Some? && id.value in allowed && enabled.Bool? && material.Some? then
        Some(Delivery(id.value, enabled.b, material.value))
      else None
  }

  lemma {:induction false} ReadLineIsValid(raw: RawDelivery, allowed: set<string>)
    requires ReadLine(raw, allowed).Some?
    ensures var d := ReadLine(raw, allowed).value; d.item in allowed && MaterialOk(d.material)
  {
    StripTwice(if raw.material.Some? then raw.material.value.s else "");
  }

  lemma {:induction false} ItemsGrow(ds: seq<Delivery>, d: Delivery)
    ensures Items(ds + [d]) == Items(ds) + {d.item}
  {
    var more := ds + [d];
    assert more[|ds|] == d && forall i :: 0 <= i < |ds| ==> more[i] == ds[i];
  }

  lemma {:induction false} ValidListGrows(ds: seq<Delivery>, d: Delivery, allowed: set<string>)
    requires ValidList(ds, allowed) && d.item in allowed && MaterialOk(d.material) && d.item !in Items(ds)
    ensures ValidList(ds + [d], allowed)
  {
    assert forall i :: 0 <= i < |ds| ==> ds[i].item in Items(ds);
  }

  /** Every line can be read, and no item is named twice. */
  predicate AllReadable(value: seq<RawDelivery>, allowed: set<string>) {
    && (forall i :: 0 <= i < |value| ==> ReadLine(value[i], allowed).Some?)
    && (forall i, j :: 0 <= i < j < |value| ==>
        ReadLine(value[i], allowed).value.item != ReadLine(value[j], allowed).value.item)
  }

  /** What is submitted as a list: nothing, a list, or something else. */
  datatype Submitted<T> = Nothing | AList(items: seq<T>) | NotAList

  /** `normalise_deliveries`: nothing is the empty list. */
  method NormaliseDeliveries(value: Submitted<RawDelivery>, allowed: set<string>) returns (out: Option<seq<Delivery>>)
    ensures out.Some? <==> value.Nothing? || (value.AList? && AllReadable(value.items, allowed))
    ensures value.Nothing? ==> out == Some([])
    ensures out.Some? ==> ValidList(out.value, allowed)
    ensures out.Some? && value.AList? ==>
              && |out.value| == |value.items|
              && forall i :: 0 <= i < |value.items| ==> Some(out.value[i]) == ReadLine(value.items[i], allowed)
  {
    match value
    case Nothing => out := Some([]);
    case AList(items) => out := ReadLines(items, allowed);
    case NotAList => out := None;
  }

  /** The loop over the lines: every line valid and no item twice, or no result. */
  method ReadLines(value: seq<RawDelivery>, allowed: set<string>) returns (out: Option<seq<Delivery>>)
    ensures out.Some? <==> AllReadable(value, allowed)
    ensures out.Some? ==> |out.value| == |value| && ValidList(out.value, allowed)
    ensures out.Some? ==> forall i :: 0 <= i < |value| ==> Some(out.value[i]) == ReadLine(value[i], allowed)
  {
    var result, seen := [], {};
    for i := 0 to |value|
      invariant |result| == i && ValidList(result, allowed) && seen == Items(result)
      invariant forall j :: 0 <= j < i ==> Some(result[j]) == ReadLine(value[j], allowed)
    {
      var line := ReadLine(value[i], allowed);
      if line.None? {
        return None;
      }
      if line.value.item in seen {
        ghost var j :| 0 <= j < i && result[j].item == line.value.item;
        assert ReadLine(value[j], allowed) == Some(result[j]);
        return None;
      }
      ReadLineIsValid(value[i], allowed);
      ItemsGrow(result, line.value);
      ValidListGrows(result, line.value, allowed);
      result, seen := result + [line.value], seen + {line.value.item};
    }
    out := Some(result);
  }

  function UpdateItems(us: seq<Update>): set<string> {
    set i | 0 <= i < |us| :: us[i].item
  }

  lemma {:induction false} UpdateItemsGrow(us: seq<Update>, u: Update)
    ensures UpdateItems(us + [u]) == UpdateItems(us) + {u.item}
  {
    var more := us + [u];
    assert more[|us|] == u && forall i :: 0 <= i < |us| ==> more[i] == us[i];
  }

  lemma {:induction false} ValidBatchGrows(us: seq<Update>, u: Update, allowed: set<string>)
    requires ValidBatch(us, allowed) && u.item in allowed && (u.enabled ==> MaterialOk(u.material))
              && u.item !in UpdateItems(us)
    ensures ValidBatch(us + [u], allowed)
  {
    assert forall i :: 0 <= i < |us| ==> us[i].item in UpdateItems(us);
  }

  /** Every id names an item of the shop, and no item is named twice. */
  predicate AllSelectable(ids: seq<RawId>, allowed: set<string>) {
    && (forall i :: 0 <= i < |ids| ==> SafeItemId(ids[i]).Some? && SafeItemId(ids[i]).value in allowed)
    && (forall i, j :: 0 <= i < j < |ids| ==> SafeItemId(ids[i]) != SafeItemId(ids[j]))
  }

  /** The loop over the ids of a batch. */
  method SelectItems(ids: seq<RawId>, enabled: bool, text: string, allowed: set<string>)
    returns (out: Option<seq<Update>>)
    requires enabled ==> MaterialOk(text)
    ensures out.Some? <==> AllSelectable(ids, allowed)
    ensures out.Some? ==> |out.value| == |ids| && ValidBatch(out.value, allowed)
    ensures out.Some? ==> forall i :: 0 <= i < |ids| ==> out.value[i] == Update(SafeItemId(ids[i]).value, enabled, text)
  {
    var result, seen := [], {};
    for i := 0 to |ids|
      invariant |result| == i && ValidBatch(result, allowed) && seen == UpdateItems(result)
      invariant forall j :: 0 <= j < i ==>
                SafeItemId(ids[j]).Some? && result[j] == Update(SafeItemId(ids[j]).value, enabled, text)
    {
      var id := SafeItemId(ids[i]);
      if id.None? || id.value !in allowed {
        return None;
      }
      if id.value in seen {
        ghost var j :| 0 <= j < i && result[j].item == id.value;
        assert SafeItemId(ids[j]) == id;
        return None;
      }
      var u := Update(id.value, enabled, text);
      UpdateItemsGrow(result, u);
      ValidBatchGrows(result, u, allowed);
      result, seen := result + [u], seen + {id.value};
    }
    out := Some(result);
  }

  /** `normalise_material_batch`; disabling carries no new material. */
  method NormaliseMaterialBatch(ids: Submitted<RawId>, material: Json, enabled: Json, allowed: set<string>)
    returns (out: Option<seq<Update>>)
    ensures out.Some? <==>
              && ids.AList? && ids.items != [] && enabled.Bool? && (enabled.b ==> CleanMaterial(material).Some?)
              && AllSelectable(ids.items, allowed)
    ensures out.Some? ==> |out.value| == |ids.items| && ValidBatch(out.value, allowed)
    ensures out.Some? ==> forall i :: 0 <= i < |ids.items| ==>
              out.value[i] == Update(SafeItemId(ids.items[i]).value, enabled.b,
                                     if enabled.b then CleanMaterial(material).value else "")
  {
    if !ids.AList? || ids.items == [] || !enabled.Bool? || (enabled.b && CleanMaterial(material).None?) {
      return None;
    }
    var text := if enabled.b then CleanMaterial(material).value else "";
    if enabled.b {
      StripTwice(material.s);
    }
    out := SelectItems(ids.items, enabled.b, text, allowed);
  }
}
