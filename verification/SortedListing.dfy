// The sorted subscription list: one text key per sort field, ascending with
// NULLS LAST or descending with NULLS FIRST, ties broken by id, and a keyset
// predicate written out by hand in the WHERE clause.
module SortedListing {
  import opened Common
  import opened Paging

  // `name` and `title` are the LOWER(...) texts, `nextPoll` and `created` the
  // to_char(...) texts of the timestamps.
  datatype Row = Row(
    name: string, title: string, season: nat, enabled: bool, nextPoll: Option<string>, created: string, deleted: bool)

  datatype Field = ByName | BySeries | BySeason | ByEnabled | ByNextPoll | ByCreated

  function Digit(d: nat): char
    requires d < 10
  {
    "0123456789"[d]
  }

  function Decimal(n: nat): (s: string)
    ensures |s| > 0
  {
    if n < 10 then [Digit(n)] else Decimal(n / 10) + [Digit(n % 10)]
  }

  function Zeros(k: nat): (s: string)
    ensures |s| == k
  {
    if k == 0 then "" else "0" + Zeros(k - 1)
  }

  // lpad(text, 12, '0'), which also truncates longer texts.
  function Lpad(text: string): (s: string)
    ensures |s| == 12
  {
    if |text| <= 12 then Zeros(12 - |text|) + text else text[..12]
  }

  function Key(row: Row, field: Field): Option<string> {
    match field
    case ByName => Some(row.name)
    case BySeries => Some(row.title)
    case BySeason => Some(Lpad(Decimal(row.season)))
    case ByEnabled => Some(if row.enabled then "1" else "0")
    case ByNextPoll => row.nextPoll
    case ByCreated => Some(row.created)
  }

  // What the query orders by: the key of the chosen field and the id.
  datatype Item = Item(key: Option<string>, id: Uuid)

  type Table = map<Uuid, Row>

  function Items(table: Table, field: Field, matches: Row -> bool): set<Item> {
    set id | id in table && !table[id].deleted && matches(table[id]) :: Item(Key(table[id], field), id)
  }

  // ORDER BY, for any collation of the text keys.
  predicate Before(text: (string, string) -> bool, asc: bool, a: Item, b: Item) {
    if asc then
      if a.key.None? || b.key.None? then
        (a.key.Some? && b.key.None?) || (a.key == b.key && a.id < b.id)
      else text(a.key.value, b.key.value) || (a.key == b.key && a.id < b.id)
    else
      if a.key.None? || b.key.None? then
        (a.key.None? && b.key.Some?) || (a.key == b.key && a.id > b.id)
      else text(b.key.value, a.key.value) || (a.key == b.key && a.id > b.id)
  }

  function OrderBy(text: (string, string) -> bool, asc: bool): (Item, Item) -> bool {
    (a, b) => Before(text, asc, a, b)
  }

  function OrEmpty(key: Option<string>): string { if key.Some? then key.value else "" }

  // The keyset condition: a row comparison when ascending, three
  // alternatives when descending.
  predicate CursorAdmits(text: (string, string) -> bool, asc: bool, row: Item, cursor: Item) {
    if asc then
      || (row.key.None? && cursor.key.Some?)
      || (row.key.None? == cursor.key.None?
          && (text(OrEmpty(cursor.key), OrEmpty(row.key))
              || (OrEmpty(row.key) == OrEmpty(cursor.key) && row.id > cursor.id)))
    else
      || (row.key.Some? && cursor.key.None?)
      || (row.key.Some? == cursor.key.Some? && text(OrEmpty(row.key), OrEmpty(cursor.key)))
      || (row.key.Some? == cursor.key.Some? && OrEmpty(row.key) == OrEmpty(cursor.key) && row.id < cursor.id)
  }

  lemma OrderIsStrict(text: (string, string) -> bool, asc: bool)
    requires StrictOrder(text)
    ensures StrictOrder(OrderBy(text, asc))
  {
    var less := OrderBy(text, asc);
    forall x, y, z | less(x, y) && less(y, z) ensures less(x, z) {
    }
    forall x, y ensures x == y || less(x, y) || less(y, x) {
    }
  }

  // The keyset condition admits exactly the rows that ORDER BY puts after the cursor.
  lemma CursorIsSuccessor(text: (string, string) -> bool, asc: bool, row: Item, cursor: Item)
    requires StrictOrder(text)
    ensures CursorAdmits(text, asc, row, cursor) <==> Before(text, asc, cursor, row)
  {
  }

  function Admitted(text: (string, string) -> bool, asc: bool, items: set<Item>, cursor: Option<Item>): set<Item> {
    set x | x in items && (cursor.Some? ==> CursorAdmits(text, asc, x, cursor.value))
  }

  ghost function Listing(text: (string, string) -> bool, asc: bool, items: set<Item>): (s: seq<Item>)
    requires StrictOrder(text)
    ensures Ascending(s, OrderBy(text, asc)) && forall x :: x in s <==> x in items
  {
    OrderIsStrict(text, asc);
    Sorted(items, OrderBy(text, asc))
  }

  // WHERE ... ORDER BY ... LIMIT
  ghost function Query(text: (string, string) -> bool, asc: bool, items: set<Item>, cursor: Option<Item>, limit: nat)
    : seq<Item>
    requires StrictOrder(text)
  {
    var all := Listing(text, asc, Admitted(text, asc, items, cursor));
    if |all| <= limit then all else all[..limit]
  }

  lemma AdmittedIsAfter(text: (string, string) -> bool, asc: bool, items: set<Item>, cursor: Option<Item>)
    requires StrictOrder(text)
    ensures Admitted(text, asc, items, cursor) == After(items, cursor, OrderBy(text, asc))
  {
    forall x | x in items && cursor.Some?
      ensures CursorAdmits(text, asc, x, cursor.value) <==> OrderBy(text, asc)(cursor.value, x)
    {
      CursorIsSuccessor(text, asc, x, cursor.value);
    }
  }

  // One request: a page of `limit` rows read with one row of look-ahead, and the
  // cursor for the next request when there is more.  The cursor is an id; its
  // key is loaded again from the table.
  datatype Reply = InvalidCursor | Reply(items: seq<Item>, next: Option<Uuid>)

  ghost function ListPage(
    text: (string, string) -> bool, asc: bool, table: Table, field: Field, matches: Row -> bool,
    cursor: Option<Uuid>, limit: nat): Reply
    requires StrictOrder(text)
  {
    if cursor.Some? && (cursor.value !in table || table[cursor.value].deleted) then InvalidCursor
    else
      var from := if cursor.None? then None else Some(Item(Key(table[cursor.value], field), cursor.value));
      var rows := Query(text, asc, Items(table, field, matches), from, limit + 1);
      if |rows| > limit then
        Reply(rows[..limit], if limit > 0 then Some(rows[limit - 1].id) else None)
      else Reply(rows, None)
  }

  lemma AdmittedShrinks(text: (string, string) -> bool, asc: bool, items: set<Item>, cursor: Option<Item>, next: Item)
    requires StrictOrder(text) && next in Admitted(text, asc, items, cursor)
    ensures |Admitted(text, asc, items, Some(next))| < |Admitted(text, asc, items, cursor)|
  {
    OrderIsStrict(text, asc);
    AdmittedIsAfter(text, asc, items, cursor);
    AdmittedIsAfter(text, asc, items, Some(next));
    AfterShrinks(items, cursor, next, OrderBy(text, asc));
  }

  lemma QueryIsPrefix(text: (string, string) -> bool, asc: bool, items: set<Item>, cursor: Option<Item>, limit: nat)
    requires StrictOrder(text) && |Query(text, asc, items, cursor, limit + 1)| > limit
    ensures var all := Listing(text, asc, Admitted(text, asc, items, cursor));
            limit < |all| && Query(text, asc, items, cursor, limit + 1)[..limit] == all[..limit]
  {
  }

  lemma ListingSplits(text: (string, string) -> bool, asc: bool, items: set<Item>, cursor: Option<Item>, limit: nat)
    requires StrictOrder(text) && 0 < limit <= |Listing(text, asc, Admitted(text, asc, items, cursor))|
    ensures var all := Listing(text, asc, Admitted(text, asc, items, cursor));
            && all[limit - 1] in Admitted(text, asc, items, cursor)
            && all == all[..limit] + Listing(text, asc, Admitted(text, asc, items, Some(all[limit - 1])))
  {
    OrderIsStrict(text, asc);
    AdmittedIsAfter(text, asc, items, cursor);
    PrefixThenRest(items, cursor, limit, OrderBy(text, asc));
    AdmittedIsAfter(text, asc, items, Some(Listing(text, asc, Admitted(text, asc, items, cursor))[limit - 1]));
  }

  // The rows admitted after a full page are the rest of the listing.
  lemma PageThenRest(text: (string, string) -> bool, asc: bool, items: set<Item>, cursor: Option<Item>, limit: nat)
    requires StrictOrder(text) && limit > 0 && |Query(text, asc, items, cursor, limit + 1)| > limit
    ensures var rows := Query(text, asc, items, cursor, limit + 1);
            && rows[limit - 1] in Admitted(text, asc, items, cursor)
            && Listing(text, asc, Admitted(text, asc, items, cursor))
               == rows[..limit] + Listing(text, asc, Admitted(text, asc, items, Some(rows[limit - 1])))
  {
    var rows := Query(text, asc, items, cursor, limit + 1);
    QueryIsPrefix(text, asc, items, cursor, limit);
    assert rows[limit - 1] == rows[..limit][limit - 1];
    ListingSplits(text, asc, items, cursor, limit);
  }

  predicate Known(table: Table, cursor: Option<Uuid>) {
    cursor.Some? ==> cursor.value in table && !table[cursor.value].deleted
  }

  function CursorItem(table: Table, field: Field, cursor: Option<Uuid>): Option<Item>
    requires Known(table, cursor)
  {
    if cursor.None? then None else Some(Item(Key(table[cursor.value], field), cursor.value))
  }

  // The cursor of a reply stands for the last item of the page.
  lemma NextCursorIsLast(
    text: (string, string) -> bool, asc: bool, table: Table, field: Field, matches: Row -> bool,
    cursor: Option<Uuid>, limit: nat)
    requires StrictOrder(text) && limit > 0 && Known(table, cursor)
    requires ListPage(text, asc, table, field, matches, cursor, limit).next.Some?
    ensures var reply, items := ListPage(text, asc, table, field, matches, cursor, limit), Items(table, field, matches);
            var rows := Query(text, asc, items, CursorItem(table, field, cursor), limit + 1);
            && Known(table, reply.next) && |rows| > limit
            && CursorItem(table, field, reply.next) == Some(rows[limit - 1])
  {
    var items := Items(table, field, matches);
    var rows := Query(text, asc, items, CursorItem(table, field, cursor), limit + 1);
    assert rows[limit - 1] in Listing(text, asc, Admitted(text, asc, items, CursorItem(table, field, cursor)));
    assert rows[limit - 1] in items;
  }

  // A client that follows the cursors until there is none.
  ghost function Follow(
    text: (string, string) -> bool, asc: bool, table: Table, field: Field, matches: Row -> bool,
    cursor: Option<Uuid>, limit: nat): seq<Item>
    requires StrictOrder(text) && limit > 0 && Known(table, cursor)
    decreases |Admitted(text, asc, Items(table, field, matches), CursorItem(table, field, cursor))|
  {
    var reply := ListPage(text, asc, table, field, matches, cursor, limit);
    if reply.next.None? then reply.items
    else
      var items := Items(table, field, matches);
      NextCursorIsLast(text, asc, table, field, matches, cursor, limit);
      PageThenRest(text, asc, items, CursorItem(table, field, cursor), limit);
      AdmittedShrinks(text, asc, items, CursorItem(table, field, cursor), CursorItem(table, field, reply.next).value);
      reply.items + Follow(text, asc, table, field, matches, reply.next, limit)
  }

  // Following the cursors from the first page lists every matching subscription
  // exactly once, in the ORDER BY order.
  lemma {:induction false} FollowListsAll(
    text: (string, string) -> bool, asc: bool, table: Table, field: Field, matches: Row -> bool,
    cursor: Option<Uuid>, limit: nat)
    requires StrictOrder(text) && limit > 0 && Known(table, cursor)
    ensures Follow(text, asc, table, field, matches, cursor, limit)
            == Listing(text, asc, Admitted(text, asc, Items(table, field, matches), CursorItem(table, field, cursor)))
    decreases |Admitted(text, asc, Items(table, field, matches), CursorItem(table, field, cursor))|
  {
    var reply := ListPage(text, asc, table, field, matches, cursor, limit);
    if reply.next.Some? {
      var items := Items(table, field, matches);
      NextCursorIsLast(text, asc, table, field, matches, cursor, limit);
      PageThenRest(text, asc, items, CursorItem(table, field, cursor), limit);
      AdmittedShrinks(text, asc, items, CursorItem(table, field, cursor), CursorItem(table, field, reply.next).value);
      FollowListsAll(text, asc, table, field, matches, reply.next, limit);
    }
  }

  lemma ClientSeesWholeList(
    text: (string, string) -> bool, asc: bool, table: Table, field: Field, matches: Row -> bool, limit: nat)
    requires StrictOrder(text) && limit > 0
    ensures var seen := Follow(text, asc, table, field, matches, None, limit);
            && Ascending(seen, OrderBy(text, asc))
            && forall x :: x in seen <==> x in Items(table, field, matches)
  {
    FollowListsAll(text, asc, table, field, matches, None, limit);
    assert Admitted(text, asc, Items(table, field, matches), None) == Items(table, field, matches);
  }

  ghost function KeysetPages(
    text: (string, string) -> bool, asc: bool, items: set<Item>, cursor: Option<Item>, limit: nat): seq<Item>
    requires StrictOrder(text) && limit > 0
  {
    OrderIsStrict(text, asc);
    Pages(items, cursor, limit, OrderBy(text, asc))
  }

  // Reading with one row of look-ahead and re-loading the cursor visits the same
  // rows as plain keyset paging in the ORDER BY order.
  lemma FollowIsPaging(
    text: (string, string) -> bool, asc: bool, table: Table, field: Field, matches: Row -> bool,
    cursor: Option<Uuid>, limit: nat)
    requires StrictOrder(text) && limit > 0 && Known(table, cursor)
    ensures Follow(text, asc, table, field, matches, cursor, limit)
            == KeysetPages(text, asc, Items(table, field, matches), CursorItem(table, field, cursor), limit)
  {
    OrderIsStrict(text, asc);
    FollowListsAll(text, asc, table, field, matches, cursor, limit);
    PagesListAll(Items(table, field, matches), CursorItem(table, field, cursor), limit, OrderBy(text, asc));
    AdmittedIsAfter(text, asc, Items(table, field, matches), CursorItem(table, field, cursor));
  }

  // ------------------------------------------------------------ what a client sees

  // A precedes B on one column: by its text, ties broken by id, everything reversed when descending.
  predicate TextThenId(text: (string, string) -> bool, asc: bool, a: string, b: string, x: Uuid, y: Uuid) {
    if asc then text(a, b) || (a == b && x < y) else text(b, a) || (a == b && x > y)
  }

  // The order of two subscriptions in the list, in terms of their columns.  Subscriptions without a next poll come
  // last when ascending and first when descending; disabled ones come before enabled ones when ascending.
  predicate InOrder(text: (string, string) -> bool, asc: bool, field: Field, a: Row, b: Row, x: Uuid, y: Uuid) {
    match field
    case ByName => TextThenId(text, asc, a.name, b.name, x, y)
    case BySeries => TextThenId(text, asc, a.title, b.title, x, y)
    case ByCreated => TextThenId(text, asc, a.created, b.created, x, y)
    case ByNextPoll =>
      if a.nextPoll.Some? && b.nextPoll.Some? then TextThenId(text, asc, a.nextPoll.value, b.nextPoll.value, x, y)
      else if a.nextPoll == b.nextPoll then (if asc then x < y else x > y)
      else a.nextPoll.Some? == asc
    case ByEnabled =>
      if a.enabled == b.enabled then (if asc then x < y else x > y) else b.enabled == asc
    case BySeason => a.season == b.season ==> if asc then x < y else x > y
  }

  lemma OrderedByColumn(
    text: (string, string) -> bool, asc: bool, table: Table, field: Field, matches: Row -> bool, a: Item, b: Item)
    requires StrictOrder(text) && text("0", "1")
    requires a in Items(table, field, matches) && b in Items(table, field, matches) && OrderBy(text, asc)(a, b)
    ensures InOrder(text, asc, field, table[a.id], table[b.id], a.id, b.id)
  {
    assert a.key == Key(table[a.id], field) && b.key == Key(table[b.id], field);
  }

  // Main result: a client that follows the cursors sees each subscription that matches and is not deleted exactly
  // once, ordered by the chosen column.
  lemma ClientSeesSortedColumn(
    text: (string, string) -> bool, asc: bool, table: Table, field: Field, matches: Row -> bool, limit: nat)
    requires StrictOrder(text) && text("0", "1") && limit > 0
    ensures var seen := Follow(text, asc, table, field, matches, None, limit);
            && (forall i | 0 <= i < |seen| ::
                  seen[i].id in table && !table[seen[i].id].deleted && matches(table[seen[i].id]))
            && (forall id | id in table && !table[id].deleted && matches(table[id]) ::
                  exists i :: 0 <= i < |seen| && seen[i].id == id)
            && (forall i, j | 0 <= i < j < |seen| :: seen[i].id != seen[j].id)
            && (forall i, j | 0 <= i < j < |seen| ::
                  InOrder(text, asc, field, table[seen[i].id], table[seen[j].id], seen[i].id, seen[j].id))
  {
    var seen := Follow(text, asc, table, field, matches, None, limit);
    ClientSeesWholeList(text, asc, table, field, matches, limit);
    OrderIsStrict(text, asc);
    assert forall i | 0 <= i < |seen| :: seen[i] in seen && seen[i] in Items(table, field, matches);
    forall id | id in table && !table[id].deleted && matches(table[id])
      ensures exists i :: 0 <= i < |seen| && seen[i].id == id
    {
      assert Item(Key(table[id], field), id) in seen;
    }
    forall i, j | 0 <= i < j < |seen|
      ensures seen[i].id != seen[j].id
      ensures InOrder(text, asc, field, table[seen[i].id], table[seen[j].id], seen[i].id, seen[j].id)
    {
      assert OrderBy(text, asc)(seen[i], seen[j]);
      OrderedByColumn(text, asc, table, field, matches, seen[i], seen[j]);
    }
  }

  // ------------------------------------------------------- season keys as text

  // Text order in the C collation.
  predicate LexLess(a: string, b: string) {
    if b == "" then false
    else a == "" || a[0] < b[0] || (a[0] == b[0] && LexLess(a[1..], b[1..]))
  }

  lemma {:induction false} LexTransitive(a: string, b: string, c: string)
    requires LexLess(a, b) && LexLess(b, c)
    ensures LexLess(a, c)
  {
    if a != "" && a[0] == b[0] && b[0] == c[0] { LexTransitive(a[1..], b[1..], c[1..]); }
  }

  lemma {:induction false} LexTotal(a: string, b: string)
    ensures !LexLess(a, a)
    ensures a == b || LexLess(a, b) || LexLess(b, a)
  {
    if a != "" {
      LexTotal(a[1..], if b == "" then "" else b[1..]);
      if b != "" { assert a == [a[0]] + a[1..] && b == [b[0]] + b[1..]; }
    }
  }

  lemma LexIsStrict()
    ensures StrictOrder(LexLess)
  {
    forall a, b, c | LexLess(a, b) && LexLess(b, c) ensures LexLess(a, c) { LexTransitive(a, b, c); }
    forall a, b ensures !LexLess(a, a) && (a == b || LexLess(a, b) || LexLess(b, a)) { LexTotal(a, b); }
  }

  lemma {:induction false} LexLastDigit(u: string, v: string, c: char, d: char)
    requires |u| == |v|
    ensures LexLess(u + [c], v + [d]) <==> LexLess(u, v) || (u == v && c < d)
  {
    if u != "" {
      LexLastDigit(u[1..], v[1..], c, d);
      assert (u + [c])[1..] == u[1..] + [c] && (v + [d])[1..] == v[1..] + [d];
      assert u == [u[0]] + u[1..] && v == [v[0]] + v[1..];
    }
  }

  function Pow10(k: nat): nat { if k == 0 then 1 else 10 * Pow10(k - 1) }

  // The k-digit text of a number, leading zeros included.
  function Padded(n: nat, k: nat): (s: string)
    ensures |s| == k
  {
    if k == 0 then "" else Padded(n / 10, k - 1) + [Digit(n % 10)]
  }

  lemma {:induction false} PaddedIsOrdered(a: nat, b: nat, k: nat)
    requires a < Pow10(k) && b < Pow10(k)
    ensures LexLess(Padded(a, k), Padded(b, k)) <==> a < b
    ensures Padded(a, k) == Padded(b, k) <==> a == b
  {
    if k > 0 {
      PaddedIsOrdered(a / 10, b / 10, k - 1);
      LexLastDigit(Padded(a / 10, k - 1), Padded(b / 10, k - 1), Digit(a % 10), Digit(b % 10));
      var u, v := Padded(a, k), Padded(b, k);
      assert u[..k - 1] == Padded(a / 10, k - 1) && v[..k - 1] == Padded(b / 10, k - 1);
      assert u[k - 1] == Digit(a % 10) && v[k - 1] == Digit(b % 10);
      DigitsAreOrdered(a % 10, b % 10);
    }
  }

  lemma DigitsAreOrdered(c: nat, d: nat)
    requires c < 10 && d < 10
    ensures Digit(c) < Digit(d) <==> c < d
    ensures Digit(c) == Digit(d) <==> c == d
  {
  }

  lemma {:induction false} PaddedZero(k: nat)
    ensures Padded(0, k) == Zeros(k)
  {
    if k > 0 {
      PaddedZero(k - 1);
      ZerosSnoc(k - 1);
    }
  }

  lemma {:induction false} ZerosSnoc(k: nat)
    ensures Zeros(k) + "0" == Zeros(k + 1)
  {
    if k > 0 {
      ZerosSnoc(k - 1);
      assert Zeros(k) + "0" == "0" + (Zeros(k - 1) + "0");
    }
  }

  lemma TenthFits(n: nat, k: nat)
    requires 10 <= n < Pow10(k)
    ensures k > 1 && n / 10 < Pow10(k - 1)
  {
  }

  // Padding the decimal text is the same as writing leading zeros.
  lemma {:induction false} LpadIsPadded(n: nat, k: nat)
    requires n < Pow10(k) && k > 0
    ensures |Decimal(n)| <= k && Zeros(k - |Decimal(n)|) + Decimal(n) == Padded(n, k)
  {
    if n < 10 {
      PaddedZero(k - 1);
    } else {
      TenthFits(n, k);
      var front := Decimal(n / 10);
      LpadIsPadded(n / 10, k - 1);
      assert Zeros(k - 1 - |front|) + (front + [Digit(n % 10)]) == (Zeros(k - 1 - |front|) + front) + [Digit(n % 10)];
    }
  }

  lemma TwelveDigits()
    ensures Pow10(12) == 1_000_000_000_000
  {
    assert Pow10(3) == 1000 && Pow10(6) == 1000 * Pow10(3);
    assert Pow10(9) == 1000 * Pow10(6) && Pow10(12) == 1000 * Pow10(9);
  }

  // Seasons sort as numbers although they are compared as texts: the column is a
  // 32-bit integer, so twelve digits always suffice.
  lemma SeasonsSortAsNumbers(a: nat, b: nat)
    requires a < 0x8000_0000 && b < 0x8000_0000
    ensures LexLess(Lpad(Decimal(a)), Lpad(Decimal(b))) <==> a < b
  {
    TwelveDigits();
    LpadIsPadded(a, 12);
    LpadIsPadded(b, 12);
    PaddedIsOrdered(a, b, 12);
  }

  lemma SeasonItemsOrdered(asc: bool, a: nat, b: nat, x: Uuid, y: Uuid)
    requires a < 0x8000_0000 && b < 0x8000_0000
    requires Before(LexLess, asc, Item(Some(Lpad(Decimal(a))), x), Item(Some(Lpad(Decimal(b))), y))
    ensures if asc then a <= b else a >= b
  {
    SeasonsSortAsNumbers(a, b);
    SeasonsSortAsNumbers(b, a);
    LexTotal(Lpad(Decimal(a)), Lpad(Decimal(b)));
  }

  lemma SeasonItem(table: Table, matches: Row -> bool, x: Item)
    requires x in Items(table, BySeason, matches)
    ensures x.id in table && x == Item(Some(Lpad(Decimal(table[x.id].season))), x.id)
  {
  }

  // So a client that follows the season-sorted list sees the seasons as numbers in
  // ascending or descending order, although the database compares texts.
  lemma SeasonListIsNumeric(asc: bool, table: Table, matches: Row -> bool, limit: nat)
    requires limit > 0 && forall id | id in table :: table[id].season < 0x8000_0000
    ensures StrictOrder(LexLess)
    ensures var seen := Follow(LexLess, asc, table, BySeason, matches, None, limit);
            forall i, j | 0 <= i < j < |seen| ::
              seen[i].id in table && seen[j].id in table
              && if asc then table[seen[i].id].season <= table[seen[j].id].season
                 else table[seen[i].id].season >= table[seen[j].id].season
  {
    LexIsStrict();
    var seen := Follow(LexLess, asc, table, BySeason, matches, None, limit);
    ClientSeesWholeList(LexLess, asc, table, BySeason, matches, limit);
    forall i, j | 0 <= i < j < |seen|
      ensures seen[i].id in table && seen[j].id in table
      ensures if asc then table[seen[i].id].season <= table[seen[j].id].season
              else table[seen[i].id].season >= table[seen[j].id].season
    {
      assert seen[i] in seen && seen[j] in seen;
      SeasonItem(table, matches, seen[i]);
      SeasonItem(table, matches, seen[j]);
      assert OrderBy(LexLess, asc)(seen[i], seen[j]);
      SeasonItemsOrdered(asc, table[seen[i].id].season, table[seen[j].id].season, seen[i].id, seen[j].id);
    }
  }
}
