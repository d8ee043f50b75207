/** Watchlists: a position column and an optimistic version, kept by transactions, refine a plain sequence of items. */
module Watchlist {
  import opened Basics
  import opened Ordering

  datatype Item = Item(list: string, symbol: string, asset: string, note: Option<string>, position: int)
  datatype Job = Job(symbol: string, asset: string)

  /** Tables watchlist_items, watchlists and scheduled_jobs. */
  datatype Tables = Tables(items: map<string, Item>, versions: map<string, int>, jobs: set<Job>)

  datatype Error = InvalidAsset | InvalidSymbol | InvalidPosition | InvalidOrder | Duplicate | UnknownItem | UnknownList | VersionConflict

  // ---- statements ----

  function InList(items: map<string, Item>, list: string): set<string> { set id | id in items && items[id].list == list }

  /** `UPDATE watchlist_items SET position = position + by WHERE watchlist_id = list AND position > above`. */
  function Shifted(items: map<string, Item>, list: string, above: Option<int>, delta: int): map<string, Item> {
    map id | id in items ::
      if items[id].list == list && (above.None? || items[id].position > above.value)
      then items[id].(position := items[id].position + delta) else items[id]
  }

  predicate Holds(items: map<string, Item>, list: string, symbol: string, except: Option<string>) {
    exists id :: id in items && items[id].list == list && items[id].symbol == symbol && Some(id) != except
  }

  predicate ValidAsset(asset: string) { asset == "stock" || asset == "crypto" }

  function Placed(items: map<string, Item>, list: string, order: seq<string>): map<string, Item> {
    map id | id in items ::
      if items[id].list == list && id in order then items[id].(position := IndexOf(order, id)) else items[id]
  }

  /** The last place where an id stands; later updates win. */
  function IndexOf(order: seq<string>, id: string): (k: nat)
    requires id in order
    ensures k < |order| && order[k] == id
  {
    if order[|order| - 1] == id then |order| - 1 else IndexOf(order[..|order| - 1], id)
  }

  // ---- operations ----

  datatype Result = Done(tables: Tables) | Refused(error: Error)

  function Bumped(versions: map<string, int>, list: string): map<string, int>
    requires list in versions
  {
    versions[list := versions[list] + 1]
  }

  /** `symbol` is the canonical form of what was typed, or nothing when that is no ticker. */
  function Add(t: Tables, list: string, id: string, symbol: Option<string>, asset: string, note: Option<string>): Result {
    if !ValidAsset(asset) then Refused(InvalidAsset)
    else if symbol.None? then Refused(InvalidSymbol)
    else if Holds(t.items, list, symbol.value, None) then Refused(Duplicate)
    else
      var versions := if list in t.versions then t.versions else t.versions[list := 1];
      Done(t.(items := Shifted(t.items, list, None, 1)[id := Item(list, symbol.value, asset, note, 0)], versions := Bumped(versions, list)))
  }

  function Delete(t: Tables, id: string, expected: int): Result {
    if id !in t.items then Refused(UnknownItem)
    else
      var it := t.items[id];
      if it.list !in t.versions || t.versions[it.list] != expected then Refused(VersionConflict)
      else Done(Tables(Shifted(t.items - {id}, it.list, Some(it.position), -1), Bumped(t.versions, it.list),
                       t.jobs - {Job(it.symbol, it.asset)}))
  }

  predicate IsPermutation(order: seq<string>, ids: set<string>) {
    (set id | id in order) == ids && |order| == |ids|
  }

  function Reorder(t: Tables, list: string, order: seq<string>, expected: int): Result {
    if list !in t.versions then Refused(UnknownList)
    else if t.versions[list] != expected then Refused(VersionConflict)
    else if !IsPermutation(order, InList(t.items, list)) then Refused(InvalidOrder)
    else Done(t.(items := Placed(t.items, list, order), versions := Bumped(t.versions, list)))
  }

  /** What an update asks for; `symbol` is already canonical, and nothing stands for no ticker. */
  datatype Change = Change(note: Option<Option<string>>, symbol: Option<Option<string>>, asset: Option<string>, position: Option<int>)

  function Update(t: Tables, id: string, c: Change, expected: int): Result {
    if id !in t.items then Refused(UnknownItem)
    else
      var it := t.items[id];
      if c.asset.Some? && !ValidAsset(c.asset.value) then Refused(InvalidAsset)
      else if c.symbol == Some(None) then Refused(InvalidSymbol)
      else if c.position.Some? && c.position.value < 0 then Refused(InvalidPosition)
      else if it.list !in t.versions || t.versions[it.list] != expected then Refused(VersionConflict)
      else
        var symbol := if c.symbol.Some? then c.symbol.value.value else it.symbol;
        if Holds(t.items, it.list, symbol, Some(id)) then Refused(Duplicate)
        else Done(t.(items := t.items[id := Item(it.list, symbol, if c.asset.Some? then c.asset.value else it.asset,
                                                 if c.note.Some? then c.note.value else it.note,
                                                 if c.position.Some? then c.position.value else it.position)],
                     versions := Bumped(t.versions, it.list)))
  }

  // ---- the sequence behind the positions ----

  /** The list's rows are `order`, at positions 0, 1, 2, ... */
  ghost predicate Dense(items: map<string, Item>, list: string, order: seq<string>) {
    && (forall i :: 0 <= i < |order| ==> order[i] in items && items[order[i]].list == list && items[order[i]].position == i)
    && (forall id :: id in items && items[id].list == list ==> id in order)
  }

  lemma DenseIsUnique(items: map<string, Item>, list: string, a: seq<string>, b: seq<string>)
    requires Dense(items, list, a) && Dense(items, list, b)
    ensures a == b
  {
    forall i | 0 <= i < |a| ensures i < |b| && a[i] == b[i] { assert a[i] in b; }
    forall i | 0 <= i < |b| ensures i < |a| && b[i] == a[i] { assert b[i] in a; }
    if a != [] { assert a[|a| - 1] in b; }
    if b != [] { assert b[|b| - 1] in a; }
  }

  /** What `list_items` returns: the rows of the list by position, ties by id. */
  ghost predicate IsListing(items: map<string, Item>, list: string, rows: seq<string>) {
    && (forall id :: id in rows <==> id in items && items[id].list == list)
    && (forall i, j :: 0 <= i < j < |rows| ==> rows[i] != rows[j])
    && forall i, j :: 0 <= i < j < |rows| && rows[i] in items && rows[j] in items ==>
         items[rows[i]].position < items[rows[j]].position
         || (items[rows[i]].position == items[rows[j]].position && Leq(rows[i], rows[j]))
  }

  /** A listing of a dense list is its sequence. */
  lemma ListingIsOrder(items: map<string, Item>, list: string, order: seq<string>, rows: seq<string>)
    requires Dense(items, list, order) && IsListing(items, list, rows)
    ensures rows == order
  {
    forall i | 0 <= i < |rows| ensures 0 <= items[rows[i]].position < |order| && order[items[rows[i]].position] == rows[i] {
      assert rows[i] in order;
    }
    ListingSpreads(items, list, order, rows);
    ListingCovers(items, list, order, rows, |rows|);
    Distinct(items, list, order);
    CountDistinct(rows);
    assert (set x | x in rows) == (set x | x in order);
  }

  /** Positions in a listing strictly increase, so the position of a row is at least its place. */
  lemma ListingSpreads(items: map<string, Item>, list: string, order: seq<string>, rows: seq<string>)
    requires Dense(items, list, order) && IsListing(items, list, rows)
    requires forall i :: 0 <= i < |rows| ==> 0 <= items[rows[i]].position < |order| && order[items[rows[i]].position] == rows[i]
    ensures forall i, j :: 0 <= i < j < |rows| ==> items[rows[i]].position < items[rows[j]].position
  {}

  lemma {:induction false} ListingCovers(items: map<string, Item>, list: string, order: seq<string>, rows: seq<string>, n: nat)
    requires Dense(items, list, order) && IsListing(items, list, rows) && n <= |rows|
    requires forall i :: 0 <= i < |rows| ==> 0 <= items[rows[i]].position < |order| && order[items[rows[i]].position] == rows[i]
    requires forall i, j :: 0 <= i < j < |rows| ==> items[rows[i]].position < items[rows[j]].position
    ensures forall i :: 0 <= i < n ==> items[rows[i]].position == i
  {
    if n > 0 {
      ListingCovers(items, list, order, rows, n - 1);
      var p := items[rows[n - 1]].position;
      if n > 1 { assert items[rows[n - 2]].position == n - 2; }
      var id := order[n - 1];
      assert id in rows;
      var k :| 0 <= k < |rows| && rows[k] == id;
    }
  }

  // ---- refinement ----

  /** Adding is cons: everything moves down by one, the new item comes first. */
  lemma AddIsCons(t: Tables, list: string, id: string, symbol: Option<string>, asset: string, note: Option<string>, order: seq<string>)
    requires Dense(t.items, list, order) && id !in t.items && Add(t, list, id, symbol, asset, note).Done?
    ensures Dense(Add(t, list, id, symbol, asset, note).tables.items, list, [id] + order)
  {
    var u := Add(t, list, id, symbol, asset, note).tables;
    forall i | 0 <= i < |[id] + order| ensures var x := ([id] + order)[i]; x in u.items && u.items[x].list == list && u.items[x].position == i {
      if i > 0 { assert order[i - 1] in t.items; }
    }
  }

  /** Deleting is removal: what stood below moves up. */
  lemma DeleteIsRemoval(t: Tables, id: string, expected: int, order: seq<string>, k: nat)
    requires Delete(t, id, expected).Done? && k < |order| && order[k] == id && Dense(t.items, t.items[id].list, order)
    ensures Dense(Delete(t, id, expected).tables.items, t.items[id].list, order[..k] + order[k + 1..])
  {
    var list := t.items[id].list;
    var u := Delete(t, id, expected).tables;
    var rest := order[..k] + order[k + 1..];
    forall i | 0 <= i < |rest| ensures rest[i] in u.items && u.items[rest[i]].list == list && u.items[rest[i]].position == i {
      var j := if i < k then i else i + 1;
      assert rest[i] == order[j] && t.items[order[j]].position == j;
    }
    forall x | x in u.items && u.items[x].list == list ensures x in rest {
      var j :| 0 <= j < |order| && order[j] == x;
      if j < k { assert rest[j] == x; } else { assert j != k; assert rest[j - 1] == x; }
    }
  }

  /** Reordering installs the given order, whatever the positions were before. */
  lemma ReorderInstalls(t: Tables, list: string, order: seq<string>, expected: int)
    requires Reorder(t, list, order, expected).Done?
    ensures Dense(Reorder(t, list, order, expected).tables.items, list, order)
  {
    var ids := InList(t.items, list);
    var u := Reorder(t, list, order, expected).tables;
    NoRepeats(order);
    assert (set id | id in order) == ids;
    forall i | 0 <= i < |order| ensures order[i] in u.items && u.items[order[i]].list == list && u.items[order[i]].position == i {
      assert order[i] in ids;
      assert IndexOf(order, order[i]) == i;
    }
    forall x | x in u.items && u.items[x].list == list ensures x in order { assert x in ids; }
  }

  /** As many distinct elements as places: no element stands twice. */
  lemma {:induction false} NoRepeats(order: seq<string>)
    ensures |set id | id in order| <= |order|
    ensures |set id | id in order| == |order| ==> forall i, j :: 0 <= i < j < |order| ==> order[i] != order[j]
  {
    if order != [] {
      var n := |order| - 1;
      NoRepeats(order[..n]);
      var last := order[n];
      var before := set id | id in order[..n];
      assert order == order[..n] + [last];
      assert (set id | id in order) == before + {last};
      if last in before { assert before + {last} == before; }
    }
  }

  /** An update that keeps the position keeps the sequence; one that moves an item breaks it, until the next reorder. */
  lemma UpdateKeepsOrderIff(t: Tables, id: string, c: Change, expected: int, order: seq<string>)
    requires Update(t, id, c, expected).Done? && Dense(t.items, t.items[id].list, order)
    ensures var u := Update(t, id, c, expected).tables;
            HasOrder(u.items, t.items[id].list) <==> (c.position.Some? ==> c.position.value == t.items[id].position)
  {
    var list := t.items[id].list;
    var u := Update(t, id, c, expected).tables;
    assert id in order;
    var k :| 0 <= k < |order| && order[k] == id;
    if c.position.Some? && c.position.value != k {
      if any :| Dense(u.items, list, any) { NoOtherOrder(t.items, u.items, list, order, k, any); }
    } else {
      assert Dense(u.items, list, order);
    }
  }

  /** Two dense lists of the same rows that differ in the place of one row only cannot both be dense. */
  lemma NoOtherOrder(items: map<string, Item>, items': map<string, Item>, list: string, order: seq<string>, k: nat, any: seq<string>)
    requires Dense(items, list, order) && Dense(items', list, any) && k < |order| && items'.Keys == items.Keys
    requires forall x :: x in items ==> items'[x].list == items[x].list
    requires forall x :: x in items && x != order[k] ==> items'[x].position == items[x].position
    ensures items'[order[k]].position == k
  {
    assert forall x :: x in order <==> x in any;
    var p := items'[order[k]].position;
    assert order[k] in any;
    SameLength(items, items', list, order, any);
    var y := any[k];
    assert y in order;
  }

  lemma SameLength(items: map<string, Item>, items': map<string, Item>, list: string, a: seq<string>, b: seq<string>)
    requires Dense(items, list, a) && Dense(items', list, b) && forall x :: x in a <==> x in b
    ensures |a| == |b|
  {
    Distinct(items, list, a);
    Distinct(items', list, b);
    assert (set x | x in a) == (set x | x in b);
  }

  lemma Distinct(items: map<string, Item>, list: string, a: seq<string>)
    requires Dense(items, list, a)
    ensures |set x | x in a| == |a|
  {
    assert forall i, j :: 0 <= i < j < |a| ==> a[i] != a[j];
    CountDistinct(a);
  }

  lemma {:induction false} CountDistinct(a: seq<string>)
    requires forall i, j :: 0 <= i < j < |a| ==> a[i] != a[j]
    ensures |set x | x in a| == |a|
  {
    if a != [] {
      var n := |a| - 1;
      CountDistinct(a[..n]);
      assert a == a[..n] + [a[n]];
      assert (set x | x in a) == (set x | x in a[..n]) + {a[n]};
    }
  }

  // ---- what every accepted and every refused call does ----

  datatype Call =
    | DoAdd(list: string, id: string, symbol: Option<string>, asset: string, note: Option<string>)
    | DoDelete(id: string, expected: int)
    | DoReorder(list: string, order: seq<string>, expected: int)
    | DoUpdate(id: string, change: Change, expected: int)

  function Apply(t: Tables, c: Call): Result {
    match c
    case DoAdd(list, id, symbol, asset, note) => Add(t, list, id, symbol, asset, note)
    case DoDelete(id, expected) => Delete(t, id, expected)
    case DoReorder(list, order, expected) => Reorder(t, list, order, expected)
    case DoUpdate(id, change, expected) => Update(t, id, change, expected)
  }

  /** The list a call is about. */
  function Touches(t: Tables, c: Call): Option<string> {
    match c
    case DoAdd(list, _, _, _, _) => Some(list)
    case DoReorder(list, _, _) => Some(list)
    case DoDelete(id, _) => if id in t.items then Some(t.items[id].list) else None
    case DoUpdate(id, _, _) => if id in t.items then Some(t.items[id].list) else None
  }

  /** A new item gets a fresh id. */
  predicate FreshId(t: Tables, c: Call) { c.DoAdd? ==> c.id !in t.items }

  /** An accepted call raises the version of its own list by one and touches no other list. */
  lemma OthersStay(t: Tables, c: Call, other: string, order: seq<string>)
    requires FreshId(t, c) && Apply(t, c).Done? && Touches(t, c) != Some(other) && Dense(t.items, other, order)
    ensures Dense(Apply(t, c).tables.items, other, order)
    ensures other in t.versions ==> other in Apply(t, c).tables.versions && Apply(t, c).tables.versions[other] == t.versions[other]
  {
    assert forall i :: 0 <= i < |order| ==> order[i] in t.items;
  }

  lemma VersionCounts(t: Tables, c: Call)
    requires Apply(t, c).Done?
    ensures var list := Touches(t, c);
            && list.Some? && list.value in Apply(t, c).tables.versions
            && Apply(t, c).tables.versions[list.value] == (if list.value in t.versions then t.versions[list.value] else 1) + 1
  {}

  // ---- who is accepted ----

  /** No row of the list but `except` has this symbol. */
  ghost predicate NewSymbol(items: map<string, Item>, list: string, symbol: string, except: Option<string>) {
    forall id :: id in items && items[id].list == list && items[id].symbol == symbol ==> Some(id) == except
  }

  /** Exactly when a call is accepted. Everything but an add must name the version its list has. */
  lemma AcceptedIff(t: Tables, c: Call)
    ensures Apply(t, c).Done? <==>
            match c
            case DoAdd(list, _, symbol, asset, _) =>
              (asset == "stock" || asset == "crypto") && symbol.Some? && NewSymbol(t.items, list, symbol.value, None)
            case DoDelete(id, expected) =>
              id in t.items && t.items[id].list in t.versions && t.versions[t.items[id].list] == expected
            case DoReorder(list, order, expected) =>
              && list in t.versions && t.versions[list] == expected
              && (forall id :: id in order <==> id in t.items && t.items[id].list == list)
              && forall i, j :: 0 <= i < j < |order| ==> order[i] != order[j]
            case DoUpdate(id, change, expected) =>
              && id in t.items && t.items[id].list in t.versions && t.versions[t.items[id].list] == expected
              && (change.asset.Some? ==> change.asset.value == "stock" || change.asset.value == "crypto")
              && change.symbol != Some(None) && (change.position.Some? ==> change.position.value >= 0)
              && NewSymbol(t.items, t.items[id].list, if change.symbol.Some? then change.symbol.value.value else t.items[id].symbol, Some(id))
  {
    if c.DoReorder? { PermutationIff(t.items, c.list, c.order); }
  }

  lemma PermutationIff(items: map<string, Item>, list: string, order: seq<string>)
    ensures IsPermutation(order, InList(items, list)) <==>
            && (forall id :: id in order <==> id in items && items[id].list == list)
            && forall i, j :: 0 <= i < j < |order| ==> order[i] != order[j]
  {
    var ids := set id | id in order;
    if (forall i, j :: 0 <= i < j < |order| ==> order[i] != order[j]) {
      CountDistinct(order);
      if forall id :: id in order <==> id in items && items[id].list == list { assert ids == InList(items, list); }
    } else if IsPermutation(order, InList(items, list)) {
      Repeated(order);
    }
    if IsPermutation(order, InList(items, list)) {
      forall id ensures id in order <==> id in items && items[id].list == list { assert id in order <==> id in ids; }
    }
  }

  /** A list with a repetition has fewer members than places. */
  lemma {:induction false} Repeated(order: seq<string>)
    requires exists i, j :: 0 <= i < j < |order| && order[i] == order[j]
    ensures |set id | id in order| < |order|
  {
    var n := |order| - 1;
    var i, j :| 0 <= i < j < |order| && order[i] == order[j];
    var all, before := set id | id in order, set id | id in order[..n];
    assert order == order[..n] + [order[n]];
    if j < n {
      assert order[..n][i] == order[..n][j];
      Repeated(order[..n]);
      assert all == before + {order[n]};
    } else {
      assert order[i] in order[..n];
      assert all == before;
      AtMost(order[..n]);
    }
  }

  lemma {:induction false} AtMost(order: seq<string>)
    ensures |set id | id in order| <= |order|
  {
    if order != [] {
      var n := |order| - 1;
      AtMost(order[..n]);
      assert order == order[..n] + [order[n]];
      assert (set id | id in order) == (set id | id in order[..n]) + {order[n]};
    }
  }

  /** No lost update: of two deletes, reorders or updates made with the same version of a list, the second is refused when the
      first was accepted. */
  lemma SecondIsRefused(t: Tables, first: Call, second: Call)
    requires Apply(t, first).Done? && !first.DoAdd? && !second.DoAdd?
    requires Touches(Apply(t, first).tables, second) == Touches(t, first)
    requires Expected(first) == Expected(second)
    ensures Apply(Apply(t, first).tables, second).Refused?
  {
    AcceptedIff(t, first);
    VersionCounts(t, first);
    AcceptedIff(Apply(t, first).tables, second);
  }

  function Expected(c: Call): int
    requires !c.DoAdd?
  {
    match c
    case DoDelete(_, expected) => expected
    case DoReorder(_, _, expected) => expected
    case DoUpdate(_, _, expected) => expected
  }

  /** No list holds a symbol twice. */
  ghost predicate SymbolsApart(items: map<string, Item>) {
    forall i, j :: i in items && j in items && i != j && items[i].list == items[j].list ==> items[i].symbol != items[j].symbol
  }

  lemma AcceptedKeepsApart(t: Tables, c: Call)
    requires SymbolsApart(t.items) && Apply(t, c).Done?
    ensures SymbolsApart(Apply(t, c).tables.items)
  {
    AcceptedIff(t, c);
  }

  /** Over every history of calls, whatever they are, no list ever holds a symbol twice. */
  lemma {:induction false} RunKeepsApart(t: Tables, calls: seq<Call>)
    requires SymbolsApart(t.items)
    ensures SymbolsApart(Run(t, calls).items)
  {
    if calls != [] {
      var n := |calls| - 1;
      RunKeepsApart(t, calls[..n]);
      if Apply(Run(t, calls[..n]), calls[n]).Done? { AcceptedKeepsApart(Run(t, calls[..n]), calls[n]); }
    }
  }

  /** What an accepted add or update stores, and what a delete takes with it. */
  lemma AcceptedStores(t: Tables, c: Call)
    requires Apply(t, c).Done?
    ensures var u := Apply(t, c).tables;
            match c
            case DoAdd(list, id, symbol, asset, note) =>
              symbol.Some? && id in u.items && u.items[id] == Item(list, symbol.value, asset, note, 0) && u.jobs == t.jobs
              && forall i :: i in t.items && i != id ==> i in u.items && u.items[i] == t.items[i].(position := u.items[i].position)
            case DoDelete(id, _) =>
              && id in t.items && id !in u.items
              && (forall i :: i in t.items && i != id ==> i in u.items && u.items[i] == t.items[i].(position := u.items[i].position))
              && u.jobs == t.jobs - {Job(t.items[id].symbol, t.items[id].asset)}
            case DoReorder(_, _, _) =>
              u.items.Keys == t.items.Keys && u.jobs == t.jobs
              && forall i :: i in t.items ==> u.items[i] == t.items[i].(position := u.items[i].position)
            case DoUpdate(id, change, _) =>
              && id in t.items && id in u.items && u.jobs == t.jobs
              && u.items[id].list == t.items[id].list
              && u.items[id].asset == (if change.asset.Some? then change.asset.value else t.items[id].asset)
              && u.items[id].note == (if change.note.Some? then change.note.value else t.items[id].note)
              && u.items[id].position == (if change.position.Some? then change.position.value else t.items[id].position)
              && (change.symbol.Some? ==> change.symbol == Some(Some(u.items[id].symbol)))
              && (change.symbol.None? ==> u.items[id].symbol == t.items[id].symbol)
              && forall i :: i in t.items && i != id ==> i in u.items && u.items[i] == t.items[i]
  {
    if c.DoUpdate? && c.change.symbol.Some? { assert c.change.symbol.value.Some?; }
  }

  /** No update that moves an item. */
  predicate Orderly(t: Tables, c: Call) {
    FreshId(t, c) && (c.DoUpdate? && c.id in t.items && c.change.position.Some? ==> c.change.position.value == t.items[c.id].position)
  }

  ghost predicate HasOrder(items: map<string, Item>, list: string) { exists order :: Dense(items, list, order) }

  ghost predicate AllDense(items: map<string, Item>) { forall list :: HasOrder(items, list) }

  /** What an accepted call does to the sequence of its list. */
  function Edited(order: seq<string>, c: Call): seq<string> {
    match c
    case DoAdd(_, id, _, _, _) => [id] + order
    case DoDelete(id, _) => Minus(order, id)
    case DoReorder(_, ids, _) => ids
    case DoUpdate(_, _, _) => order
  }

  function Minus(order: seq<string>, id: string): seq<string> {
    if order == [] then [] else if order[0] == id then order[1..] else [order[0]] + Minus(order[1..], id)
  }

  lemma {:induction false} MinusAt(order: seq<string>, k: nat)
    requires k < |order| && forall i :: 0 <= i < k ==> order[i] != order[k]
    ensures Minus(order, order[k]) == order[..k] + order[k + 1..]
  {
    if k > 0 {
      MinusAt(order[1..], k - 1);
      assert order[1..][..k - 1] == order[1..k] && order[1..][k..] == order[k + 1..];
      assert order[..k] == [order[0]] + order[1..k];
    }
  }

  lemma TouchedDense(t: Tables, c: Call, list: string, order: seq<string>)
    requires Orderly(t, c) && Apply(t, c).Done? && Touches(t, c) == Some(list) && Dense(t.items, list, order)
    ensures Dense(Apply(t, c).tables.items, list, Edited(order, c))
  {
    match c
    case DoAdd(_, id, symbol, asset, note) => AddIsCons(t, list, id, symbol, asset, note, order);
    case DoDelete(id, expected) =>
      assert id in order;
      var k :| 0 <= k < |order| && order[k] == id;
      DeleteIsRemoval(t, id, expected, order, k);
      MinusAt(order, k);
    case DoReorder(_, ids, expected) => ReorderInstalls(t, list, ids, expected);
    case DoUpdate(id, change, expected) =>
  }

  /** A refused call leaves the tables alone: its transaction is rolled back. */
  function After(t: Tables, c: Call): Tables { if Apply(t, c).Done? then Apply(t, c).tables else t }

  function Run(t: Tables, calls: seq<Call>): Tables {
    if calls == [] then t else After(Run(t, calls[..|calls| - 1]), calls[|calls| - 1])
  }

  predicate OrderlyRun(t: Tables, calls: seq<Call>) {
    calls != [] ==> OrderlyRun(t, calls[..|calls| - 1]) && Orderly(Run(t, calls[..|calls| - 1]), calls[|calls| - 1])
  }

  /** The calls that were accepted on this list, as edits of a sequence, in turn. */
  function Edits(t: Tables, calls: seq<Call>, list: string, order: seq<string>): seq<string> {
    if calls == [] then order
    else
      var n := |calls| - 1;
      var u, before := Run(t, calls[..n]), Edits(t, calls[..n], list, order);
      if Apply(u, calls[n]).Done? && Touches(u, calls[n]) == Some(list) then Edited(before, calls[n]) else before
  }

  lemma {:induction false} RunEdits(t: Tables, calls: seq<Call>, list: string, order: seq<string>)
    requires Dense(t.items, list, order) && OrderlyRun(t, calls)
    ensures Dense(Run(t, calls).items, list, Edits(t, calls, list, order))
  {
    if calls != [] {
      hide Dense, Apply, Touches, Edited;
      var n := |calls| - 1;
      RunEdits(t, calls[..n], list, order);
      var u, c := Run(t, calls[..n]), calls[n];
      if Apply(u, c).Done? {
        if Touches(u, c) == Some(list) {
          TouchedDense(u, c, list, Edits(t, calls[..n], list, order));
        } else {
          OthersStay(u, c, list, Edits(t, calls[..n], list, order));
        }
      }
    }
  }

  /** Over every history of orderly calls, accepted or refused, the rows of a list behave as a sequence that accepted calls
      edit: that sequence is the only one their positions spell out, and the one a listing returns. */
  lemma RunIsEditing(t: Tables, calls: seq<Call>, list: string, order: seq<string>)
    requires Dense(t.items, list, order) && OrderlyRun(t, calls)
    ensures var items, edited := Run(t, calls).items, Edits(t, calls, list, order);
            && (forall any :: Dense(items, list, any) <==> any == edited)
            && (forall rows :: IsListing(items, list, rows) ==> rows == edited)
  {
    RunEdits(t, calls, list, order);
    var items, edited := Run(t, calls).items, Edits(t, calls, list, order);
    hide Dense, IsListing, Run, Edits;
    forall any | Dense(items, list, any) ensures any == edited { DenseIsUnique(items, list, any, edited); }
    forall rows | IsListing(items, list, rows) ensures rows == edited { ListingIsOrder(items, list, edited, rows); }
  }

  /** So the positions of every list stay exactly 0..n-1. */
  lemma RunKeepsDense(t: Tables, calls: seq<Call>)
    requires AllDense(t.items) && OrderlyRun(t, calls)
    ensures AllDense(Run(t, calls).items)
  {
    forall list ensures HasOrder(Run(t, calls).items, list) {
      assert HasOrder(t.items, list);
      var order :| Dense(t.items, list, order);
      RunEdits(t, calls, list, order);
    }
  }

  // ---- in place ----

  /** Each method is one transaction: statements change the tables one after the other, and a failure on the way puts
      everything back. */
  class WatchlistRepository {
    var items: map<string, Item>
    var versions: map<string, int>
    var jobs: set<Job>

    constructor ()
      ensures State() == Tables(map[], map["default" := 1], {})
    {
      items, versions, jobs := map[], map["default" := 1], {};
    }

    function State(): Tables
      reads this
    {
      Tables(items, versions, jobs)
    }

    method Rollback(t: Tables)
      modifies this
      ensures State() == t
    {
      items, versions, jobs := t.items, t.versions, t.jobs;
    }

    /** The version test of an update: false when the row is not there at the expected version. */
    method BumpVersion(list: string, expected: int) returns (ok: bool)
      modifies this`versions
      ensures ok == (list in old(versions) && old(versions)[list] == expected)
      ensures versions == if ok then Bumped(old(versions), list) else old(versions)
    {
      if list !in versions { return false; }
      if versions[list] != expected { return false; }
      versions := versions[list := versions[list] + 1];
      ok := true;
    }

    method AddItem(list: string, id: string, symbol: Option<string>, asset: string, note: Option<string>) returns (error: Option<Error>)
      requires id !in items
      modifies this
      ensures error == (if Add(old(State()), list, id, symbol, asset, note).Refused?
                        then Some(Add(old(State()), list, id, symbol, asset, note).error) else None)
      ensures State() == After(old(State()), DoAdd(list, id, symbol, asset, note))
    {
      if !ValidAsset(asset) { return Some(InvalidAsset); }
      if symbol.None? { return Some(InvalidSymbol); }
      var saved := State();
      if list !in versions { versions := versions[list := 1]; }
      items := Shifted(items, list, None, 1);
      if Holds(items, list, symbol.value, None) {  // UNIQUE(watchlist_id, symbol)
        HeldBefore(saved.items, list, symbol.value, None, 1);
        Rollback(saved);
        return Some(Duplicate);
      }
      HeldBefore(saved.items, list, symbol.value, None, 1);
      items := items[id := Item(list, symbol.value, asset, note, 0)];
      versions := Bumped(versions, list);
      error := None;
    }

    method DeleteItem(id: string, expected: int) returns (error: Option<Error>)
      modifies this
      ensures error == (if Delete(old(State()), id, expected).Refused? then Some(Delete(old(State()), id, expected).error) else None)
      ensures State() == After(old(State()), DoDelete(id, expected))
    {
      if id !in items { return Some(UnknownItem); }
      var it := items[id];
      var ok := BumpVersion(it.list, expected);
      if !ok { return Some(VersionConflict); }
      jobs := jobs - {Job(it.symbol, it.asset)};
      items := items - {id};
      items := Shifted(items, it.list, Some(it.position), -1);
      error := None;
    }

    method UpdateItem(id: string, c: Change, expected: int) returns (error: Option<Error>)
      modifies this
      ensures error == (if Update(old(State()), id, c, expected).Refused? then Some(Update(old(State()), id, c, expected).error) else None)
      ensures State() == After(old(State()), DoUpdate(id, c, expected))
    {
      if id !in items { return Some(UnknownItem); }
      var it := items[id];
      if c.asset.Some? && !ValidAsset(c.asset.value) { return Some(InvalidAsset); }
      if c.symbol == Some(None) { return Some(InvalidSymbol); }
      if c.position.Some? && c.position.value < 0 { return Some(InvalidPosition); }
      var saved := State();
      var ok := BumpVersion(it.list, expected);
      if !ok { return Some(VersionConflict); }
      var symbol := if c.symbol.Some? then c.symbol.value.value else it.symbol;
      if Holds(items, it.list, symbol, Some(id)) {
        Rollback(saved);
        return Some(Duplicate);
      }
      items := items[id := Item(it.list, symbol, if c.asset.Some? then c.asset.value else it.asset,
                                if c.note.Some? then c.note.value else it.note,
                                if c.position.Some? then c.position.value else it.position)];
      error := None;
    }

    /** The version is raised before the order is looked at; an invalid order takes the raise back. */
    method ReorderItems(list: string, order: seq<string>, expected: int) returns (error: Option<Error>)
      modifies this
      ensures error == (if Reorder(old(State()), list, order, expected).Refused?
                        then Some(Reorder(old(State()), list, order, expected).error) else None)
      ensures State() == After(old(State()), DoReorder(list, order, expected))
    {
      if list !in versions { return Some(UnknownList); }
      var saved := State();
      var ok := BumpVersion(list, expected);
      if !ok { return Some(VersionConflict); }
      var existing := set id | id in items && items[id].list == list;
      assert existing == InList(items, list);
      if (set id | id in order) != existing || |order| != |existing| {
        Rollback(saved);
        return Some(InvalidOrder);
      }
      for k := 0 to |order|
        invariant items == Placed(saved.items, list, order[..k]) && versions == Bumped(saved.versions, list) && jobs == saved.jobs
      {
        assert order[k] in existing;
        PlacedOne(saved.items, list, order, k);
        items := items[order[k] := items[order[k]].(position := k)];
      }
      assert order[..|order|] == order;
      error := None;
    }
  }

  lemma HeldBefore(items: map<string, Item>, list: string, symbol: string, above: Option<int>, delta: int)
    ensures Holds(Shifted(items, list, above, delta), list, symbol, None) <==> Holds(items, list, symbol, None)
  {
    var shifted := Shifted(items, list, above, delta);
    if id :| id in items && items[id].list == list && items[id].symbol == symbol { assert id in shifted; }
  }

  /** Placing one more item. */
  lemma PlacedOne(items: map<string, Item>, list: string, order: seq<string>, k: nat)
    requires k < |order| && order[k] in items && items[order[k]].list == list
    ensures var before := Placed(items, list, order[..k]);
            order[k] in before && Placed(items, list, order[..k + 1]) == before[order[k] := before[order[k]].(position := k)]
  {
    assert order[..k + 1][..k] == order[..k];
    assert order[..k + 1] == order[..k] + [order[k]];
  }
}
