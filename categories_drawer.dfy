/** The category editor drawer: three editable lists of `{id, value}` items
    for the Needs, Wants and Savings groups, edited one step at a time, and the
    save step that turns them back into clean category lists. */
module CategoriesDrawer {
  import opened Collections

  const OTHER: string := "Other"

  /** One editable row. `id` stands for the random UUID the drawer gives every
      row; the editor hands them out from a counter, so a new id is never in use. */
  datatype Item = Item(id: nat, value: string)

  datatype Group = Needs | Wants | Savings

  function Values(items: seq<Item>): (r: seq<string>)
    ensures |r| == |items|
    ensures forall i :: 0 <= i < |items| ==> r[i] == items[i].value
  {
    seq(|items|, i requires 0 <= i < |items| => items[i].value)
  }

  /** Every id is below `bound`. */
  predicate Below(items: seq<Item>, bound: nat) {
    forall x :: x in items ==> x.id < bound
  }

  predicate HasId(items: seq<Item>, id: nat) {
    exists x :: x in items && x.id == id
  }

  /** Every id is at least `bound`. */
  predicate AtLeast(items: seq<Item>, bound: nat) {
    forall x :: x in items ==> x.id >= bound
  }

  /** No two items of the list share an id. */
  predicate UniqueIds(items: seq<Item>) {
    forall i, j :: 0 <= i < j < |items| ==> items[i].id != items[j].id
  }

  /** No item of `a` shares its id with an item of `b`. */
  predicate Apart(a: seq<Item>, b: seq<Item>) {
    forall x, y :: x in a && y in b ==> x.id != y.id
  }

  /** A list edited so that each of its ids is an old one or a new one at least
      `bound` stays apart from a list that was apart from it and lies below `bound`. */
  lemma EditedStaysApart(before: seq<Item>, after: seq<Item>, other: seq<Item>, bound: nat)
    requires Apart(before, other) || Apart(other, before)
    requires Below(other, bound)
    requires forall x :: x in after ==> HasId(before, x.id) || x.id >= bound
    ensures Apart(after, other) && Apart(other, after)
  {
    forall x, y | x in after && y in other
      ensures x.id != y.id
    {
      if HasId(before, x.id) {
        var z :| z in before && z.id == x.id;
        assert z.id != y.id;
      }
    }
  }

  /** Three lists of new items drawn one after another from the counter, each
      with distinct ids, carry no id twice between them. */
  lemma ConsecutiveListsValid(n: seq<Item>, w: seq<Item>, s: seq<Item>, b: nat, c: nat, d: nat)
    requires UniqueIds(n) && UniqueIds(w) && UniqueIds(s)
    requires Below(n, b) && AtLeast(w, b) && Below(w, c) && AtLeast(s, c) && Below(s, d) && b <= c <= d
    ensures ValidLists(n, w, s, d)
  {
  }

  /** Lists with the same ids position by position. */
  lemma SameIds(before: seq<Item>, after: seq<Item>)
    requires |after| == |before| && forall i :: 0 <= i < |before| ==> after[i].id == before[i].id
    ensures UniqueIds(before) ==> UniqueIds(after)
    ensures forall x :: x in after ==> HasId(before, x.id)
  {
    forall x | x in after
      ensures HasId(before, x.id)
    {
      var i :| 0 <= i < |after| && after[i] == x;
      assert before[i] in before;
    }
  }

  /* ---------------------------------------------------------------------- */
  /* List edits                                                               */

  /** `updateList`: the item with the given id takes the new value. */
  function Updated(items: seq<Item>, id: nat, value: string): (r: seq<Item>)
    ensures |r| == |items|
    ensures forall i :: 0 <= i < |items| ==> r[i].id == items[i].id
    ensures forall i :: 0 <= i < |items| && items[i].id != id ==> r[i] == items[i]
    ensures forall i :: 0 <= i < |items| && items[i].id == id ==> r[i].value == value
  {
    if |items| == 0 then []
    else
      var last := items[|items| - 1];
      Updated(items[..|items| - 1], id, value) + [if last.id == id then Item(id, value) else last]
  }

  /** An edit of an id that no item carries changes nothing. */
  lemma UpdatedAbsent(items: seq<Item>, id: nat, value: string)
    requires !HasId(items, id)
    ensures Updated(items, id, value) == items
  {
  }

  /** Typing the same value twice is the same as typing it once. */
  lemma UpdatedIdempotent(items: seq<Item>, id: nat, value: string)
    ensures Updated(Updated(items, id, value), id, value) == Updated(items, id, value)
  {
  }

  /** The filter of `removeFromList`: the items that do not carry `id`, in order. */
  function WithoutId(items: seq<Item>, id: nat): (r: seq<Item>)
    ensures |r| <= |items|
    ensures !HasId(r, id)
  {
    if |items| == 0 then []
    else
      var last := items[|items| - 1];
      WithoutId(items[..|items| - 1], id) + (if last.id == id then [] else [last])
  }

  /** Exactly the items that do not carry `id` remain. */
  lemma {:induction false} WithoutIdMembers(items: seq<Item>, id: nat, x: Item)
    ensures x in WithoutId(items, id) <==> x in items && x.id != id
  {
    if |items| > 0 {
      var p, last := items[..|items| - 1], items[|items| - 1];
      WithoutIdMembers(p, id, x);
      assert items == p + [last];
      assert WithoutId(items, id) == WithoutId(p, id) + (if last.id == id then [] else [last]);
    }
  }

  lemma {:induction false} WithoutIdAppend(a: seq<Item>, b: seq<Item>, id: nat)
    ensures WithoutId(a + b, id) == WithoutId(a, id) + WithoutId(b, id)
  {
    if |b| == 0 {
      assert a + b == a;
    } else {
      var init, last := b[..|b| - 1], b[|b| - 1];
      var tail := if last.id == id then [] else [last];
      assert (a + b)[..|a + b| - 1] == a + init;
      assert (a + b)[|a + b| - 1] == last;
      assert WithoutId(a + b, id) == WithoutId(a + init, id) + tail;
      assert WithoutId(b, id) == WithoutId(init, id) + tail;
      WithoutIdAppend(a, init, id);
      assert WithoutId(a, id) + WithoutId(init, id) + tail == WithoutId(a, id) + (WithoutId(init, id) + tail);
    }
  }

  lemma {:induction false} WithoutIdAbsent(items: seq<Item>, id: nat)
    requires !HasId(items, id)
    ensures WithoutId(items, id) == items
  {
    if |items| > 0 {
      var p := items[..|items| - 1];
      assert !HasId(p, id) by {
        forall x | x in p ensures x.id != id {
          assert x in items;
        }
      }
      WithoutIdAbsent(p, id);
      assert items == p + [items[|items| - 1]];
    }
  }

  /** Dropping items keeps the remaining ids distinct. */
  lemma {:induction false} WithoutIdUnique(items: seq<Item>, id: nat)
    requires UniqueIds(items)
    ensures UniqueIds(WithoutId(items, id))
  {
    if |items| > 0 {
      var p, last := items[..|items| - 1], items[|items| - 1];
      assert UniqueIds(p);
      WithoutIdUnique(p, id);
      var w := WithoutId(p, id);
      forall x | x in w
        ensures x.id != last.id
      {
        WithoutIdMembers(p, id, x);
        var i :| 0 <= i < |p| && p[i] == x;
        assert items[i] == x;
      }
    }
  }

  /** `list.find((x) => x.id === id)`: the first item carrying `id`. */
  function FindById(items: seq<Item>, id: nat): (r: Option<Item>)
    ensures r.None? <==> !HasId(items, id)
    ensures r.Some? ==> r.value in items && r.value.id == id
  {
    if |items| == 0 then None
    else if items[0].id == id then Some(items[0])
    else
      var r := FindById(items[1..], id);
      assert forall i :: 0 < i < |items| ==> items[i] == items[1..][i - 1];
      r
  }

  /** `findIndex` of the first item whose value is "Other", or the length when there is none. */
  function OtherIndex(items: seq<Item>): (k: nat)
    ensures k <= |items|
    ensures forall j :: 0 <= j < k ==> items[j].value != OTHER
    ensures k < |items| ==> items[k].value == OTHER
  {
    if |items| == 0 then 0
    else if items[0].value == OTHER then 0
    else 1 + OtherIndex(items[1..])
  }

  /** `addWant`'s update: the new item goes just before the first "Other", or
      at the end when there is none. */
  function WithItemBeforeOther(items: seq<Item>, added: Item): seq<Item>
  {
    var k := OtherIndex(items);
    items[..k] + [added] + items[k..]
  }

  /** The new item sits immediately before the first "Other", or last when
      there is none. */
  lemma InsertedBeforeOther(items: seq<Item>, added: Item)
    ensures var r := WithItemBeforeOther(items, added);
      && |r| == |items| + 1
      && (OTHER in Values(items) ==> exists k :: 0 <= k < |items| && r[k] == added && r[k + 1].value == OTHER
                                                && OTHER !in Values(r[..k]))
      && (OTHER !in Values(items) ==> r[|items|] == added)
  {
    var k := OtherIndex(items);
    var r := WithItemBeforeOther(items, added);
    if OTHER in Values(items) {
      assert k < |items|;
      assert r[k + 1] == items[k];
      assert Values(r[..k]) == Values(items[..k]);
    }
  }

  /** An item with an unused id may be inserted anywhere without repeating an id. */
  lemma InsertedUnique(items: seq<Item>, k: nat, added: Item)
    requires k <= |items| && UniqueIds(items) && !HasId(items, added.id)
    ensures UniqueIds(items[..k] + [added] + items[k..])
  {
    var r := items[..k] + [added] + items[k..];
    forall i, j | 0 <= i < j < |r|
      ensures r[i].id != r[j].id
    {
      if i == k {
        assert r[j] == items[j - 1] && r[j] in items;
      } else if j == k {
        assert r[i] == items[i] && r[i] in items;
      } else {
        var i' := if i < k then i else i - 1;
        var j' := if j < k then j else j - 1;
        assert r[i] == items[i'] && r[j] == items[j'];
      }
    }
  }

  /** Removing the new item gives back the list: every other item keeps its
      place relative to the rest. */
  lemma InsertedThenRemoved(items: seq<Item>, added: Item)
    requires !HasId(items, added.id)
    ensures WithoutId(WithItemBeforeOther(items, added), added.id) == items
  {
    var id := added.id;
    var k := OtherIndex(items);
    var a, b := items[..k], items[k..];
    assert items == a + b;
    assert WithItemBeforeOther(items, added) == (a + [added]) + b;
    assert !HasId(a, id) by {
      forall x | x in a ensures x.id != id {
        assert x in items;
      }
    }
    assert !HasId(b, id) by {
      forall x | x in b ensures x.id != id {
        assert x in items;
      }
    }
    WithoutIdAppend(a + [added], b, id);
    WithoutIdAppend(a, [added], id);
    assert WithoutId([added], id) == [] by {
      assert [added][..0] == [];
    }
    WithoutIdAbsent(a, id);
    WithoutIdAbsent(b, id);
    assert WithoutId(a + [added], id) == a;
  }

  /* ---------------------------------------------------------------------- */
  /* Save                                                                     */

  /** `clean` on plain values: each value trimmed, empty ones dropped, order kept. */
  function CleanValues(values: seq<string>): (r: seq<string>)
    ensures r == Filter(TrimAll(values), NonEmpty)
    ensures forall s :: s in r ==> s != [] && IsTrimmed(s)
    ensures |r| <= |values|
  {
    if |values| == 0 then []
    else
      var p := values[..|values| - 1];
      var v := Trim(values[|values| - 1]);
      assert TrimAll(values) == TrimAll(p) + [v];
      FilterAppend(TrimAll(p), [v], NonEmpty);
      assert [v][1..] == [];
      CleanValues(p) + (if |v| > 0 then [v] else [])
  }

  /** `clean`: the item values trimmed, empty ones dropped, order kept. */
  function Clean(items: seq<Item>): seq<string> {
    CleanValues(Values(items))
  }

  lemma CleanValuesAppend(a: seq<string>, b: seq<string>)
    ensures CleanValues(a + b) == CleanValues(a) + CleanValues(b)
  {
    TrimAllAppend(a, b);
    FilterAppend(TrimAll(a), TrimAll(b), NonEmpty);
  }

  /** Cleaning keeps clean values as they are, so cleaning twice changes nothing. */
  lemma CleanValuesOfClean(values: seq<string>)
    requires forall i :: 0 <= i < |values| ==> values[i] != [] && IsTrimmed(values[i])
    ensures CleanValues(values) == values
  {
    forall i | 0 <= i < |values|
      ensures TrimAll(values)[i] == values[i] && NonEmpty(values[i])
    {
      TrimOfTrimmed(values[i]);
    }
    assert TrimAll(values) == values;
    FilterKeepsAll(values, NonEmpty);
  }

  lemma CleanValuesIdempotent(values: seq<string>)
    ensures CleanValues(CleanValues(values)) == CleanValues(values)
  {
    var r := CleanValues(values);
    assert forall i :: 0 <= i < |r| ==> r[i] in r;
    CleanValuesOfClean(r);
  }

  /** The Wants list as the drawer orders it on open and on save: "Other"
      appended when missing, then every "Other" moved to a single one at the end. */
  function OtherLast(values: seq<string>): (r: seq<string>)
    ensures |r| > 0 && r[|r| - 1] == OTHER
    ensures OTHER !in r[..|r| - 1]
    ensures r[..|r| - 1] == RemoveAll(values, OTHER)
  {
    var withOther := if OTHER in values then values else values + [OTHER];
    RemoveAllAppend(values, [OTHER], OTHER);
    assert RemoveAll([OTHER], OTHER) == [];
    var r := RemoveAll(withOther, OTHER) + [OTHER];
    assert r[..|r| - 1] == RemoveAll(withOther, OTHER);
    r
  }

  /** Ordering an already ordered Wants list changes nothing. */
  lemma OtherLastIdempotent(values: seq<string>)
    ensures OtherLast(OtherLast(values)) == OtherLast(values)
  {
    var r := OtherLast(values);
    var p := r[..|r| - 1];
    assert r == p + [OTHER];
    RemoveAllAppend(p, [OTHER], OTHER);
    assert RemoveAll([OTHER], OTHER) == [];
    RemoveAllAbsent(p, OTHER);
  }

  /** The three lists of the editor: every id is below the counter, and no id
      is carried by two items, within a list or across the lists. */
  predicate ValidLists(needs: seq<Item>, wants: seq<Item>, savings: seq<Item>, nextId: nat) {
    && Below(needs, nextId) && Below(wants, nextId) && Below(savings, nextId)
    && UniqueIds(needs) && UniqueIds(wants) && UniqueIds(savings)
    && Apart(needs, wants) && Apart(needs, savings) && Apart(wants, savings)
  }

  function Pick(g: Group, needs: seq<Item>, wants: seq<Item>, savings: seq<Item>): seq<Item> {
    match g
    case Needs => needs
    case Wants => wants
    case Savings => savings
  }

  /** Replacing one list by a list with distinct ids, each an id of the list it
      replaces or a new one at least the old counter, keeps the lists valid
      under the new counter. */
  lemma EditKeepsValid(needs: seq<Item>, wants: seq<Item>, savings: seq<Item>, nextId: nat,
                       g: Group, after: seq<Item>, nextId': nat)
    requires ValidLists(needs, wants, savings, nextId) && nextId <= nextId'
    requires UniqueIds(after) && Below(after, nextId')
    requires forall x :: x in after ==> HasId(Pick(g, needs, wants, savings), x.id) || x.id >= nextId
    ensures g == Needs ==> ValidLists(after, wants, savings, nextId')
    ensures g == Wants ==> ValidLists(needs, after, savings, nextId')
    ensures g == Savings ==> ValidLists(needs, wants, after, nextId')
  {
    match g {
      case Needs =>
        EditedStaysApart(needs, after, wants, nextId);
        EditedStaysApart(needs, after, savings, nextId);
      case Wants =>
        EditedStaysApart(wants, after, needs, nextId);
        EditedStaysApart(wants, after, savings, nextId);
      case Savings =>
        EditedStaysApart(savings, after, needs, nextId);
        EditedStaysApart(savings, after, wants, nextId);
    }
  }

  /** The items the editor creates for `values` when its counter is at
      `start`: value `i` under id `start + i`. */
  function FreshFrom(values: seq<string>, start: nat): (r: seq<Item>)
    ensures |r| == |values|
    ensures forall i :: 0 <= i < |values| ==> r[i] == Item(start + i, values[i])
  {
    seq(|values|, i requires 0 <= i < |values| => Item(start + i, values[i]))
  }

  /** New items keep the values in order. */
  lemma FreshFromValues(items: seq<Item>, values: seq<string>, start: nat)
    requires items == FreshFrom(values, start)
    ensures Values(items) == values
  {
    assert Values(items) == values;
  }

  /** New items carry pairwise distinct ids, each between the counter before
      and after, so none was in use. */
  lemma FreshFromIds(values: seq<string>, start: nat)
    ensures UniqueIds(FreshFrom(values, start))
    ensures AtLeast(FreshFrom(values, start), start)
    ensures Below(FreshFrom(values, start), start + |values|)
  {
    var items := FreshFrom(values, start);
    forall x | x in items
      ensures start <= x.id < start + |values|
    {
      var i :| 0 <= i < |items| && items[i] == x;
    }
  }

  /** Three lists loaded one after the other from counter `start` are valid
      together and use only ids at or above `start`. */
  lemma LoadedListsValid(ns: seq<Item>, ws: seq<Item>, ss: seq<Item>, n: seq<string>, w: seq<string>, s: seq<string>,
                         start: nat)
    requires ns == FreshFrom(n, start) && ws == FreshFrom(w, start + |n|) && ss == FreshFrom(s, start + |n| + |w|)
    ensures ValidLists(ns, ws, ss, start + |n| + |w| + |s|)
    ensures AtLeast(ns, start) && AtLeast(ws, start) && AtLeast(ss, start)
  {
    var b := start + |n|;
    var c := b + |w|;
    FreshFromIds(n, start);
    FreshFromIds(w, b);
    FreshFromIds(s, c);
    ConsecutiveListsValid(ns, ws, ss, b, c, c + |s|);
  }

  /** The drawer's editable state. */
  class Editor {
    var needs: seq<Item>
    var wants: seq<Item>
    var savings: seq<Item>
    /** The next id to hand out. */
    var nextId: nat

    /** Every id is one the counter has handed out, and no id is carried by
        two items, within a list or across the lists. */
    ghost predicate Valid()
      reads this
    {
      ValidLists(needs, wants, savings, nextId)
    }

    function List(g: Group): seq<Item>
      reads this
    {
      Pick(g, needs, wants, savings)
    }

    constructor ()
      ensures Valid()
      ensures needs == [] && wants == [] && savings == []
    {
      needs, wants, savings := [], [], [];
      nextId := 0;
    }

    /** The open-time load: each list comes from its prop (a prop that is not
        an array counts as empty), and Wants is ordered with a single "Other"
        last, every item under a new id. A closed drawer loads nothing. */
    method Open(open: bool, needsProp: Option<seq<string>>, wantsProp: Option<seq<string>>,
                savingsProp: Option<seq<string>>)
      requires Valid()
      modifies this
      ensures Valid()
      ensures !open ==> needs == old(needs) && wants == old(wants) && savings == old(savings) && nextId == old(nextId)
      ensures open ==> Values(needs) == OrEmpty(needsProp) && Values(savings) == OrEmpty(savingsProp)
      ensures open ==> Values(wants) == OtherLast(OrEmpty(wantsProp))
      ensures open ==> AtLeast(needs, old(nextId)) && AtLeast(wants, old(nextId)) && AtLeast(savings, old(nextId))
    {
      if open {
        Load(OrEmpty(needsProp), OtherLast(OrEmpty(wantsProp)), OrEmpty(savingsProp));
      }
    }

    /** The lists replaced by new items for the given values, drawn from the
        counter in the order Needs, Wants, Savings. */
    method Load(n: seq<string>, w: seq<string>, s: seq<string>)
      modifies this
      ensures Valid()
      ensures needs == FreshFrom(n, old(nextId)) && wants == FreshFrom(w, old(nextId) + |n|)
      ensures savings == FreshFrom(s, old(nextId) + |n| + |w|) && nextId == old(nextId) + |n| + |w| + |s|
      ensures Values(needs) == n && Values(wants) == w && Values(savings) == s
      ensures AtLeast(needs, old(nextId)) && AtLeast(wants, old(nextId)) && AtLeast(savings, old(nextId))
    {
      var a := nextId;
      var ns, ws, ss := FreshFrom(n, a), FreshFrom(w, a + |n|), FreshFrom(s, a + |n| + |w|);
      LoadedListsValid(ns, ws, ss, n, w, s, a);
      FreshFromValues(ns, n, a);
      FreshFromValues(ws, w, a + |n|);
      FreshFromValues(ss, s, a + |n| + |w|);
      needs, wants, savings, nextId := ns, ws, ss, a + |n| + |w| + |s|;
    }

    /** The group's state setter: `after` replaces the list of `g` and the
        counter moves to `next`. Every id of `after` is distinct, below `next`,
        and either already carried by the group or not yet handed out. */
    method SetList(g: Group, after: seq<Item>, next: nat)
      requires Valid() && nextId <= next
      requires UniqueIds(after) && Below(after, next)
      requires forall x :: x in after ==> HasId(List(g), x.id) || x.id >= nextId
      modifies this
      ensures Valid() && nextId == next
      ensures List(g) == after
      ensures forall h :: h != g ==> List(h) == old(List(h))
    {
      EditKeepsValid(needs, wants, savings, nextId, g, after, next);
      match g {
        case Needs => needs := after;
        case Wants => wants := after;
        case Savings => savings := after;
      }
      nextId := next;
    }

    /** `updateList` on one group. */
    method UpdateList(g: Group, id: nat, value: string)
      requires Valid()
      modifies this
      ensures Valid() && nextId == old(nextId)
      ensures List(g) == Updated(old(List(g)), id, value)
      ensures forall h :: h != g ==> List(h) == old(List(h))
    {
      var before := List(g);
      var after := Updated(before, id, value);
      SameIds(before, after);
      assert Below(after, nextId) by {
        forall x | x in after ensures x.id < nextId {
          var z :| z in before && z.id == x.id;
        }
      }
      SetList(g, after, nextId);
    }

    /** `addToList`: one blank item with a new id at the end of the group. */
    method AddToList(g: Group)
      requires Valid()
      modifies this
      ensures Valid()
      ensures List(g) == old(List(g)) + [Item(old(nextId), "")]
      ensures !HasId(old(List(g)), old(nextId))
      ensures forall h :: h != g ==> List(h) == old(List(h))
    {
      var added := Item(nextId, "");
      var before := List(g);
      var after := before + [added];
      assert !HasId(before, added.id);
      InsertedUnique(before, |before|, added);
      assert before[..|before|] + [added] + before[|before|..] == after;
      assert forall x :: x in after ==> HasId(before, x.id) || x.id >= nextId;
      SetList(g, after, nextId + 1);
    }

    /** `addWant`: one blank Want with a new id just before the first "Other". */
    method AddWant()
      requires Valid()
      modifies this
      ensures Valid()
      ensures wants == WithItemBeforeOther(old(wants), Item(old(nextId), ""))
      ensures !HasId(old(wants), old(nextId))
      ensures needs == old(needs) && savings == old(savings)
    {
      var added := Item(nextId, "");
      var k := OtherIndex(wants);
      var after := wants[..k] + [added] + wants[k..];
      InsertedUnique(wants, k, added);
      forall x | x in after
        ensures HasId(wants, x.id) || x.id >= nextId
      {
        if x != added {
          assert x in wants[..k] || x in wants[k..];
        }
      }
      SetList(Wants, after, nextId + 1);
      assert List(Needs) == old(List(Needs)) && List(Savings) == old(List(Savings));
    }

    /** `removeFromList`: when the first item carrying `id` holds "Other"
        nothing happens; otherwise every item carrying `id` goes. */
    method RemoveFromList(g: Group, id: nat)
      requires Valid()
      modifies this
      ensures Valid() && nextId == old(nextId)
      ensures var found := FindById(old(List(g)), id);
        List(g) == if found.Some? && found.value.value == OTHER then old(List(g)) else WithoutId(old(List(g)), id)
      ensures forall h :: h != g ==> List(h) == old(List(h))
    {
      var item := FindById(List(g), id);
      if item.Some? && item.value.value == OTHER {
        return;
      }
      var before := List(g);
      var after := WithoutId(before, id);
      forall x | x in after
        ensures x in before && HasId(before, x.id)
      {
        WithoutIdMembers(before, id, x);
      }
      WithoutIdUnique(before, id);
      SetList(g, after, nextId);
    }

    /** `handleSave`: the three cleaned lists, Wants with a single "Other" last. */
    method Save() returns (needsOut: seq<string>, wantsOut: seq<string>, savingsOut: seq<string>)
      ensures needsOut == Clean(needs) && savingsOut == Clean(savings)
      ensures wantsOut == OtherLast(Clean(wants))
      ensures |wantsOut| > 0 && wantsOut[|wantsOut| - 1] == OTHER && OTHER !in wantsOut[..|wantsOut| - 1]
      ensures wantsOut[..|wantsOut| - 1] == RemoveAll(Clean(wants), OTHER)
    {
      needsOut := Clean(needs);
      var cleanedWants := Clean(wants);
      savingsOut := Clean(savings);
      if OTHER !in cleanedWants {
        cleanedWants := cleanedWants + [OTHER];
      }
      wantsOut := RemoveAll(cleanedWants, OTHER) + [OTHER];
    }
  }

  function OrEmpty(list: Option<seq<string>>): seq<string> {
    if list.Some? then list.value else []
  }
}
