/** The server's category taxonomy rules (server/app.py): cleaning of the
    Needs, Wants and Savings lists, the flat category list, the default
    backfill when a user's configuration is read, and the checks applied when
    a transaction is created. */
module ServerCategories {
  import opened Collections

  /** A JSON value as the server receives or stores it. Objects carry only their
      number of fields, which is all that Python truthiness looks at. */
  datatype Json = JNull | JBool(b: bool) | JNum(n: int) | JStr(s: string) | JList(items: seq<Json>) | JObject(size: nat)

  const OTHER: string := "Other"
  const EXPENSE: string := "expense"
  const DEFAULT_NEEDS: seq<string> := ["Housing", "Food", "Utilities", "Healthcare"]
  const DEFAULT_WANTS: seq<string> := ["Transport", "Entertainment", "Other"]
  const DEFAULT_SAVINGS: seq<string> := []

  /** The JSON strings holding the given names, in order. */
  function Strings(names: seq<string>): (items: seq<Json>)
    ensures |items| == |names|
    ensures forall i :: 0 <= i < |names| ==> items[i] == JStr(names[i])
  {
    if |names| == 0 then [] else Strings(names[..|names| - 1]) + [JStr(names[|names| - 1])]
  }

  /** The JSON list holding the given names. */
  function AsJson(names: seq<string>): Json {
    JList(Strings(names))
  }

  /** The list elements of a JSON value; any value that is not a list counts as `[]`. */
  function Elements(categories: Json): seq<Json> {
    if categories.JList? then categories.items else []
  }

  /** A name is what `str.strip` leaves of a string when that is not empty. */
  predicate IsName(s: string) {
    s != [] && IsTrimmed(s)
  }

  /** The name an element contributes: its trimmed text when it is a non-blank string. */
  function NameOf(j: Json): (r: seq<string>)
    ensures |r| <= 1 && forall i :: 0 <= i < |r| ==> IsName(r[i])
  {
    match j
    case JStr(s) => var name := Trim(s); if name != [] then [name] else []
    case _ => []
  }

  /** The string elements, trimmed, with the blank ones dropped, in order. */
  function Names(items: seq<Json>): (r: seq<string>)
    ensures forall i :: 0 <= i < |r| ==> IsName(r[i])
  {
    if |items| == 0 then [] else Names(items[..|items| - 1]) + NameOf(items[|items| - 1])
  }

  /** A list of clean names passes through `Names` unchanged. */
  lemma NameOfName(x: string)
    requires IsName(x)
    ensures NameOf(JStr(x)) == [x]
  {
    TrimOfTrimmed(x);
  }

  lemma {:induction false} NamesOfClean(names: seq<string>)
    requires forall i :: 0 <= i < |names| ==> IsName(names[i])
    ensures Names(AsJson(names).items) == names
  {
    if |names| > 0 {
      var p, x := names[..|names| - 1], names[|names| - 1];
      NamesOfClean(p);
      var items := Strings(names);
      assert items[..|items| - 1] == Strings(p);
      NameOfName(x);
      assert names == p + [x];
    }
  }

  /** The names `normalize_categories` returns: the clean names of the input
      followed by "Other", de-duplicated by first occurrence. */
  function Normalized(categories: Json): seq<string> {
    Dedup(Names(Elements(categories)) + [OTHER])
  }

  /** `normalize_categories`: keep the string elements, trimmed and non-blank,
      each once, in order of first occurrence, and make sure "Other" is there
      (appended last when the input lacks it). A non-list input counts as `[]`. */
  method NormalizeCategories(categories: Json) returns (cleaned: seq<string>)
    ensures cleaned == Normalized(categories)
    ensures OTHER in cleaned && Distinct(cleaned)
    ensures forall i :: 0 <= i < |cleaned| ==> IsName(cleaned[i])
    ensures !categories.JList? ==> cleaned == [OTHER]
  {
    var items := Elements(categories);
    cleaned := [];
    for i := 0 to |items|
      invariant cleaned == Dedup(Names(items[..i]))
    {
      assert items[..i + 1][..i] == items[..i];
      ghost var before := Names(items[..i]);
      assert Names(items[..i + 1]) == before + NameOf(items[i]);
      var c := items[i];
      if !c.JStr? {
        assert before + NameOf(c) == before;
        continue;
      }
      var name := Trim(c.s);
      assert NameOf(c) == if name != [] then [name] else [];
      if name == [] {
        assert before + NameOf(c) == before;
        continue;
      }
      if name !in cleaned {
        DedupAppendAbsent(before, name);
        cleaned := cleaned + [name];
      } else {
        DedupAppendPresent(before, name);
      }
    }
    assert items[..|items|] == items;
    if OTHER !in cleaned {
      DedupAppendAbsent(Names(items), OTHER);
      cleaned := cleaned + [OTHER];
    } else {
      DedupAppendPresent(Names(items), OTHER);
    }
    NormalizedIsClean(categories);
  }

  /** The three category groups of a user. */
  datatype Groups = Groups(needs: seq<string>, wants: seq<string>, savings: seq<string>)

  /** The groups `normalize_grouped` returns, in terms of `Normalized`. */
  function NormalizedGroups(needs: Json, wants: Json, savings: Json): Groups {
    Groups(RemoveAll(Normalized(needs), OTHER), Normalized(wants), RemoveAll(Normalized(savings), OTHER))
  }

  /** `normalize_grouped`: normalise each group, keep "Other" in Wants and take
      it out of Needs and Savings. */
  method NormalizeGrouped(needs: Json, wants: Json, savings: Json) returns (g: Groups)
    ensures g == NormalizedGroups(needs, wants, savings)
    ensures OTHER in g.wants && OTHER !in g.needs && OTHER !in g.savings
    ensures Distinct(g.needs) && Distinct(g.wants) && Distinct(g.savings)
  {
    var needsClean := NormalizeCategories(needs);
    var wantsClean := NormalizeCategories(wants);
    var savingsClean := NormalizeCategories(savings);
    if OTHER !in wantsClean {
      wantsClean := wantsClean + [OTHER];
    }
    RemoveAllKeepsDistinct(needsClean, OTHER);
    RemoveAllKeepsDistinct(savingsClean, OTHER);
    needsClean := RemoveAll(needsClean, OTHER);
    savingsClean := RemoveAll(savingsClean, OTHER);
    g := Groups(needsClean, wantsClean, savingsClean);
  }

  /** What `normalize_categories` returns is a list of distinct names that includes "Other". */
  lemma NormalizedIsClean(categories: Json)
    ensures Distinct(Normalized(categories)) && OTHER in Normalized(categories)
    ensures forall i :: 0 <= i < |Normalized(categories)| ==> IsName(Normalized(categories)[i])
  {
    var n := Names(Elements(categories)) + [OTHER];
    assert IsName(OTHER);
    assert forall x :: x in n ==> IsName(x);
    var d := Dedup(n);
    forall i | 0 <= i < |d|
      ensures IsName(d[i])
    {
      assert d[i] in n;
    }
  }

  /** Normalising a list of distinct names adds "Other" last when it is absent
      and changes nothing else. */
  lemma NormalizeClean(names: seq<string>)
    requires Distinct(names)
    requires forall i :: 0 <= i < |names| ==> IsName(names[i])
    ensures Normalized(AsJson(names)) == if OTHER in names then names else names + [OTHER]
  {
    NamesOfClean(names);
    if OTHER in names {
      DedupAppendPresent(names, OTHER);
      DedupOfDistinct(names);
    } else {
      assert Distinct(names + [OTHER]);
      DedupOfDistinct(names + [OTHER]);
    }
  }

  /** A clean list without "Other" comes back unchanged from normalising and
      removing "Other" again. */
  lemma RenormalizeWithoutOther(names: seq<string>)
    requires Distinct(names) && OTHER !in names
    requires forall i :: 0 <= i < |names| ==> IsName(names[i])
    ensures RemoveAll(Normalized(AsJson(names)), OTHER) == names
  {
    NormalizeClean(names);
    RemoveAllAppend(names, [OTHER], OTHER);
    RemoveAllAbsent(names, OTHER);
  }

  /** `RemoveAll` keeps only elements of its input. */
  lemma RemoveAllKeepsNames(names: seq<string>)
    requires Distinct(names)
    requires forall i :: 0 <= i < |names| ==> IsName(names[i])
    ensures var r := RemoveAll(names, OTHER);
            Distinct(r) && OTHER !in r && forall i :: 0 <= i < |r| ==> IsName(r[i])
  {
    var r := RemoveAll(names, OTHER);
    RemoveAllKeepsDistinct(names, OTHER);
    forall i | 0 <= i < |r|
      ensures IsName(r[i])
    {
      assert r[i] in names;
    }
  }

  /** Normalising the normalised groups again gives the same groups. */
  lemma NormalizeGroupedIdempotent(needs: Json, wants: Json, savings: Json)
    ensures var g := NormalizedGroups(needs, wants, savings);
            NormalizedGroups(AsJson(g.needs), AsJson(g.wants), AsJson(g.savings)) == g
  {
    var g := NormalizedGroups(needs, wants, savings);
    RemovedGroupStable(needs);
    RemovedGroupStable(savings);
    KeptGroupStable(wants);
    assert NormalizedGroups(AsJson(g.needs), AsJson(g.wants), AsJson(g.savings))
      == Groups(g.needs, g.wants, g.savings);
  }

  /** A Needs or Savings group is unchanged by normalising it again. */
  lemma RemovedGroupStable(categories: Json)
    ensures var r := RemoveAll(Normalized(categories), OTHER);
            RemoveAll(Normalized(AsJson(r)), OTHER) == r
  {
    NormalizedIsClean(categories);
    RemoveAllKeepsNames(Normalized(categories));
    RenormalizeWithoutOther(RemoveAll(Normalized(categories), OTHER));
  }

  /** The Wants group is unchanged by normalising it again. */
  lemma KeptGroupStable(categories: Json)
    ensures Normalized(AsJson(Normalized(categories))) == Normalized(categories)
  {
    NormalizedIsClean(categories);
    NormalizeClean(Normalized(categories));
  }


  /** `normalize_grouped` does not move an "Other" the user placed in Wants: it
      stays at its first occurrence; only a Wants list without "Other" gets it
      appended last. */
  lemma WantsKeepOtherInPlace(needs: Json, wants: Json, savings: Json)
    ensures var names := Names(Elements(wants));
            NormalizedGroups(needs, wants, savings).wants ==
              if OTHER in names then Dedup(names) else Dedup(names) + [OTHER]
  {
    var names := Names(Elements(wants));
    if OTHER in names {
      DedupAppendPresent(names, OTHER);
    } else {
      DedupAppendAbsent(names, OTHER);
    }
  }

  /** The groups are not made disjoint: a name given both in Needs and in Wants
      stays in both. */
  lemma GroupsMayOverlap(name: string)
    requires IsName(name) && name != OTHER
    ensures var g := NormalizedGroups(AsJson([name]), AsJson([name]), AsJson([]));
            name in g.needs && name in g.wants
  {
    RenormalizeWithoutOther([name]);
    NormalizeClean([name]);
  }

  /** `union_categories`: every name of the three groups exactly once, in order
      of first occurrence in needs, wants, savings. */
  function UnionCategories(needs: seq<string>, wants: seq<string>, savings: seq<string>): (r: seq<string>)
    ensures forall x :: x in r <==> x in needs || x in wants || x in savings
    ensures Distinct(r)
    ensures |r| <= |needs| + |wants| + |savings|
  {
    Dedup(needs + wants + savings)
  }

  const DEFAULT_CATEGORIES: seq<string> := UnionCategories(DEFAULT_NEEDS, DEFAULT_WANTS, DEFAULT_SAVINGS)

  /** The stored category columns of a user's configuration (JSON lists). */
  datatype StoredConfig = StoredConfig(needs: seq<Json>, wants: seq<Json>, savings: seq<Json>)

  /** What `GET /api/users/<id>/categories` returns. */
  datatype CategoryPayload = CategoryPayload(categories: seq<string>, needs: seq<string>, wants: seq<string>, savings: seq<string>)

  /** Python's `stored or DEFAULT` for a stored list. */
  function OrDefault(stored: seq<Json>, default: seq<string>): Json {
    if |stored| == 0 then AsJson(default) else JList(stored)
  }

  /** The outcome of `GET /api/users/<id>/categories`: 200 with the payload, or 404. */
  datatype CategoriesReply = CategoriesOk(payload: CategoryPayload) | UserNotFound

  /** The category read of `get_user_categories`: an unknown user is refused,
      a missing configuration is created with the defaults, an empty stored
      group falls back to its default list, then the groups are normalised and
      the flat list is their union. Whether the user exists is the database
      lookup's answer. */
  method GetUserCategories(userExists: bool, config: Option<StoredConfig>) returns (r: CategoriesReply)
    ensures r.UserNotFound? <==> !userExists
    ensures r.CategoriesOk? ==>
      var p := r.payload;
      var s := if config.Some? then config.value else StoredConfig([], [], []);
      && Groups(p.needs, p.wants, p.savings) == BackfilledGroups(s)
      && p.categories == UnionCategories(p.needs, p.wants, p.savings)
      && OTHER in p.wants && OTHER !in p.needs && OTHER !in p.savings
      && KeepsDefaults(s, Groups(p.needs, p.wants, p.savings))
  {
    if !userExists {
      return UserNotFound;
    }
    var stored := if config.Some? then config.value else StoredConfig([], [], []);
    var needs := OrDefault(stored.needs, DEFAULT_NEEDS);
    var wants := OrDefault(stored.wants, DEFAULT_WANTS);
    var savings := OrDefault(stored.savings, DEFAULT_SAVINGS);
    var g := NormalizeGrouped(needs, wants, savings);
    assert Groups(g.needs, g.wants, g.savings) == g;
    DefaultNeedsNormalize();
    DefaultWantsNormalize();
    DefaultSavingsNormalize();
    Backfilled(stored);
    r := CategoriesOk(CategoryPayload(UnionCategories(g.needs, g.wants, g.savings), g.needs, g.wants, g.savings));
  }

  /** The groups read back for a stored configuration: each empty group
      replaced by its default (Python's `stored or DEFAULT`), then normalised. */
  function BackfilledGroups(stored: StoredConfig): Groups {
    NormalizedGroups(OrDefault(stored.needs, DEFAULT_NEEDS), OrDefault(stored.wants, DEFAULT_WANTS),
                     OrDefault(stored.savings, DEFAULT_SAVINGS))
  }

  /** Every group left empty in `stored` reads back as exactly its default. */
  predicate KeepsDefaults(stored: StoredConfig, g: Groups) {
    && (|stored.needs| == 0 ==> g.needs == DEFAULT_NEEDS)
    && (|stored.wants| == 0 ==> g.wants == DEFAULT_WANTS)
    && (|stored.savings| == 0 ==> g.savings == [])
  }

  /** The default groups are already normal. */
  lemma DefaultNeedsNormalize()
    ensures RemoveAll(Normalized(AsJson(DEFAULT_NEEDS)), OTHER) == DEFAULT_NEEDS
  {
    assert forall i :: 0 <= i < |DEFAULT_NEEDS| ==> IsName(DEFAULT_NEEDS[i]);
    RenormalizeWithoutOther(DEFAULT_NEEDS);
  }

  lemma DefaultWantsNormalize()
    ensures Normalized(AsJson(DEFAULT_WANTS)) == DEFAULT_WANTS
  {
    assert forall i :: 0 <= i < |DEFAULT_WANTS| ==> IsName(DEFAULT_WANTS[i]);
    NormalizeClean(DEFAULT_WANTS);
  }

  lemma DefaultSavingsNormalize()
    ensures RemoveAll(Normalized(AsJson(DEFAULT_SAVINGS)), OTHER) == []
  {
    RenormalizeWithoutOther(DEFAULT_SAVINGS);
  }

  /** A stored group that is empty comes back from normalisation as its default. */
  lemma Backfilled(stored: StoredConfig)
    ensures KeepsDefaults(stored, BackfilledGroups(stored))
  {
    if |stored.needs| == 0 {
      DefaultNeedsNormalize();
    }
    if |stored.wants| == 0 {
      DefaultWantsNormalize();
    }
    if |stored.savings| == 0 {
      DefaultSavingsNormalize();
    }
  }

  /** The categories an expense may carry: the union of the user's stored
      groups, each backfilled with its default when empty, or the default
      categories when the user has no configuration. */
  function AllowedCategories(config: Option<StoredConfig>): seq<Json> {
    match config
    case None => Elements(AsJson(DEFAULT_CATEGORIES))
    case Some(c) =>
      Dedup(Elements(OrDefault(c.needs, DEFAULT_NEEDS)) + Elements(OrDefault(c.wants, DEFAULT_WANTS))
            + Elements(OrDefault(c.savings, DEFAULT_SAVINGS)))
  }

  /** The category stored for a new transaction: an expense whose category is
      not allowed becomes "Other"; other transaction types keep theirs. */
  function CheckedCategory(transactionType: Json, category: Json, config: Option<StoredConfig>): (c: Json)
    ensures transactionType != JStr(EXPENSE) ==> c == category
    ensures category in AllowedCategories(config) ==> c == category
    ensures transactionType == JStr(EXPENSE) && category !in AllowedCategories(config) ==> c == JStr(OTHER)
  {
    if transactionType == JStr(EXPENSE) && category !in AllowedCategories(config) then JStr(OTHER) else category
  }

  /** A transaction about to be stored (the date is not modelled). */
  datatype NewTransaction = NewTransaction(userId: int, description: Json, amount: int, transactionType: Json, category: Json)

  /** The outcome of `POST /api/transactions`: 201, 400 with a message, or 500. */
  datatype CreateResult = Created(tx: NewTransaction) | BadRequest(message: string) | ServerError

  const REQUIRED: seq<string> := ["user_id", "description", "amount", "transaction_type"]

  /** Python's `int(x)` / `float(x)` for a JSON number or boolean; `None` where
      the conversion raises (strings are not parsed here). */
  function AsNumber(j: Json): Option<int> {
    match j
    case JNum(n) => Some(n)
    case JBool(b) => Some(if b then 1 else 0)
    case _ => None
  }

  /** The body of `create_transaction`: an empty body is refused, then the first
      missing required field is reported, then the numbers are converted and
      an expense's category is checked against the user's categories. */
  method CreateTransaction(data: Option<map<string, Json>>, config: Option<StoredConfig>) returns (r: CreateResult)
    ensures data.None? || |data.value| == 0 <==> r == BadRequest("No data provided")
    ensures data.Some? && |data.value| > 0 ==>
      forall i :: 0 <= i < |REQUIRED| && REQUIRED[i] !in data.value && (forall j :: 0 <= j < i ==> REQUIRED[j] in data.value) ==>
        r == BadRequest("Missing field: " + REQUIRED[i])
    ensures r.Created? ==> data.Some? && (forall k :: k in REQUIRED ==> k in data.value)
    ensures r.Created? ==>
      var d := data.value;
      AsNumber(d["user_id"]).Some? && AsNumber(d["amount"]).Some? &&
      var category := if "category" in d then d["category"] else JNull;
      r.tx == NewTransaction(AsNumber(d["user_id"]).value, d["description"], AsNumber(d["amount"]).value,
                             d["transaction_type"], CheckedCategory(d["transaction_type"], category, config))
    ensures (data.Some? && |data.value| > 0 && (forall k :: k in REQUIRED ==> k in data.value)
             && AsNumber(data.value["user_id"]).Some? && AsNumber(data.value["amount"]).Some?) ==> r.Created?
    ensures r.ServerError? <==>
      data.Some? && |data.value| > 0 && (forall k :: k in REQUIRED ==> k in data.value)
      && (AsNumber(data.value["user_id"]).None? || AsNumber(data.value["amount"]).None?)
  {
    if data.None? || |data.value| == 0 {
      return BadRequest("No data provided");
    }
    var d := data.value;
    for i := 0 to |REQUIRED|
      invariant forall j :: 0 <= j < i ==> REQUIRED[j] in d
    {
      if REQUIRED[i] !in d {
        return BadRequest("Missing field: " + REQUIRED[i]);
      }
    }
    assert REQUIRED[0] in d && REQUIRED[1] in d && REQUIRED[2] in d && REQUIRED[3] in d;
    var userId := AsNumber(d["user_id"]);
    var amount := AsNumber(d["amount"]);
    if userId.None? || amount.None? {
      return ServerError;
    }
    var category := if "category" in d then d["category"] else JNull;
    category := CheckedCategory(d["transaction_type"], category, config);
    r := Created(NewTransaction(userId.value, d["description"], amount.value, d["transaction_type"], category));
  }
}
