/** Paging through the audit log by (created_at, id) cursors while rows are being added. */
module AuditLog {
  import opened Wrappers
  import opened Sets
  import opened Tables

  /** A row's created_at, in whole milliseconds, and its id. */
  datatype Key = Key(at: int, id: Id)

  predicate Below(a: Key, b: Key) {
    a.at < b.at || (a.at == b.at && a.id < b.id)
  }

  // ---- the cursor ----

  /** The last index of c in s, or -1. */
  function LastIndexOf(s: string, c: char): (i: int)
    ensures -1 <= i < |s|
    ensures i >= 0 ==> s[i] == c
    ensures forall j | i < j < |s| :: s[j] != c
  {
    if s == [] then -1
    else if s[|s| - 1] == c then |s| - 1
    else LastIndexOf(s[..|s| - 1], c)
  }

  function EncodeRaw(createdAt: string, id: string): string {
    createdAt + "|" + id
  }

  function DecodeRaw(raw: string): Option<(string, string)> {
    var i := LastIndexOf(raw, '|');
    if i <= 0 || i >= |raw| - 1 then None else Some((raw[..i], raw[i + 1..]))
  }

  /** Decoding undoes encoding exactly when both parts are there and the id holds no bar. */
  lemma CursorRoundTrip(createdAt: string, id: string)
    ensures DecodeRaw(EncodeRaw(createdAt, id)) == Some((createdAt, id)) <==> createdAt != "" && id != "" && '|' !in id
  {
    var raw, i := EncodeRaw(createdAt, id), LastIndexOf(EncodeRaw(createdAt, id), '|');
    assert raw[|createdAt|] == '|' && raw[..|createdAt|] == createdAt && raw[|createdAt| + 1..] == id;
    assert i >= |createdAt|;
    if i > |createdAt| {
      assert id[i - |createdAt| - 1] == '|';
      assert |raw[..i]| != |createdAt|;
    } else {
      assert forall j | 0 <= j < |id| :: id[j] == raw[|createdAt| + 1 + j];
    }
  }

  /** Whatever decodes was encoded from its parts. */
  lemma DecodedIsEncoded(raw: string)
    requires DecodeRaw(raw).Some?
    ensures var (createdAt, id) := DecodeRaw(raw).value; EncodeRaw(createdAt, id) == raw && '|' !in id
  {
    var i := LastIndexOf(raw, '|');
    assert raw[..i] + "|" + raw[i + 1..] == raw;
    var id := raw[i + 1..];
    assert forall j | 0 <= j < |id| :: id[j] == raw[i + 1 + j];
  }

  /** The text forms the database and the runtime give: timestamps, UUIDs and base64url, with their readers. */
  datatype Format = Format(iso: int -> string, time: string -> Option<int>, uuid: Id -> string,
                           id: string -> Option<Id>, base64: string -> string, unbase64: string -> string)

  ghost predicate Faithful(f: Format) {
    && (forall t: int :: f.iso(t) != "" && f.time(f.iso(t)) == Some(t))
    && (forall i: Id :: f.uuid(i) != "" && '|' !in f.uuid(i) && f.id(f.uuid(i)) == Some(i))
    && (forall raw: string :: f.unbase64(f.base64(raw)) == raw && (raw != "" ==> f.base64(raw) != ""))
  }

  function EncodeCursor(f: Format, k: Key): string {
    f.base64(EncodeRaw(f.iso(k.at), f.uuid(k.id)))
  }

  // ---- a page ----

  ghost predicate IsTop(s: set<Key>, m: Key) {
    m in s && forall k <- s :: k == m || Below(k, m)
  }

  lemma {:induction false} TopExists(s: set<Key>)
    requires s != {}
    ensures exists m :: IsTop(s, m)
    decreases |s|
  {
    var a :| a in s;
    if s == {a} {
      assert IsTop(s, a);
    } else {
      TopExists(s - {a});
      var m :| IsTop(s - {a}, m);
      if Below(a, m) {
        assert IsTop(s, m);
      } else {
        forall k <- s | k != a
          ensures Below(k, a)
        {
          assert k in s - {a};
        }
        assert IsTop(s, a);
      }
    }
  }

  /** ORDER BY created_at DESC, id DESC LIMIT n. */
  ghost function Descending(s: set<Key>, n: nat): seq<Key> {
    if s == {} || n == 0 then []
    else
      TopExists(s);
      var m :| IsTop(s, m);
      [m] + Descending(s - {m}, n - 1)
  }

  function Under(table: set<Key>, cursor: Option<Key>): set<Key> {
    match cursor case None => table case Some(c) => set k <- table | Below(k, c)
  }

  datatype Listed = Page(items: seq<Key>, next: Option<string>) | InvalidQuery | InvalidCursor | BadCast

  ghost function PageOf(f: Format, table: set<Key>, cursor: Option<Key>, limit: nat): (page: Listed)
    requires limit >= 1
    ensures page.Page?
  {
    var items := Descending(Under(table, cursor), limit);
    Page(items, if |items| == limit then Some(EncodeCursor(f, items[|items| - 1])) else None)
  }

  /** listAuditLogs on the table as it is at that moment. */
  ghost function ListAuditLogs(f: Format, table: set<Key>, limit: Option<real>, cursor: Option<string>): Listed {
    var requested := match limit case Some(n) => n case None => 25.0;
    if requested < 1.0 || requested > 100.0 then InvalidQuery
    else if cursor.None? || cursor.value == "" then PageOf(f, table, None, requested.Floor)
    else
      match DecodeRaw(f.unbase64(cursor.value))
      case None => InvalidCursor
      case Some((at, id)) =>
        if f.time(at).None? || f.id(id).None? then BadCast
        else PageOf(f, table, Some(Key(f.time(at).value, f.id(id).value)), requested.Floor)
  }

  /** The raw cursor is a timestamp and an id, both there, on the two sides of its last bar. */
  predicate SplitsInto(raw: string, at: string, id: string) {
    at != "" && id != "" && '|' !in id && raw == at + "|" + id
  }

  lemma DecodesExactly(raw: string, at: string, id: string)
    ensures DecodeRaw(raw) == Some((at, id)) <==> SplitsInto(raw, at, id)
  {
    if DecodeRaw(raw) == Some((at, id)) { DecodedIsEncoded(raw); }
    if SplitsInto(raw, at, id) { CursorRoundTrip(at, id); }
  }

  /** The one answer to every query: a bad limit, a bad cursor, or the page of 25 or of the limit. */
  lemma QueryAnswers(f: Format, table: set<Key>, limit: Option<real>, cursor: Option<string>)
    ensures var got := ListAuditLogs(f, table, limit, cursor);
            var sound := limit.None? || 1.0 <= limit.value <= 100.0;
            var rows := if limit.None? then 25 else limit.value.Floor;
            && (got == InvalidQuery <==> !sound)
            && (sound && cursor in {None, Some("")} ==> got == PageOf(f, table, None, rows))
            && (got == InvalidCursor
                <==> && sound && cursor !in {None, Some("")}
                     && forall at, id :: !SplitsInto(f.unbase64(cursor.value), at, id))
            && (forall at, id | sound && cursor !in {None, Some("")} && SplitsInto(f.unbase64(cursor.value), at, id) ::
                  got == if f.time(at).None? || f.id(id).None? then BadCast
                         else PageOf(f, table, Some(Key(f.time(at).value, f.id(id).value)), rows))
  {
    if cursor !in {None, Some("")} {
      var raw := f.unbase64(cursor.value);
      forall at, id ensures DecodeRaw(raw) == Some((at, id)) <==> SplitsInto(raw, at, id) {
        DecodesExactly(raw, at, id);
      }
      if DecodeRaw(raw).Some? { assert SplitsInto(raw, DecodeRaw(raw).value.0, DecodeRaw(raw).value.1); }
    }
    hide PageOf;
  }

  /** Latest first, and of those at one time the greatest id first. */
  ghost predicate StrictlyDescending(items: seq<Key>) {
    forall i, j | 0 <= i < j < |items| ::
      items[i].at > items[j].at || (items[i].at == items[j].at && items[i].id > items[j].id)
  }

  /** A page is the n greatest rows, greatest first. */
  lemma {:induction false} PageIsTheGreatest(s: set<Key>, n: nat)
    ensures |Descending(s, n)| == if |s| <= n then |s| else n
    ensures StrictlyDescending(Descending(s, n))
    ensures forall k <- Descending(s, n) :: k in s
    ensures forall k <- s, i | 0 <= i < |Descending(s, n)| :: k in Descending(s, n) || Below(k, Descending(s, n)[i])
    decreases n
  {
    if s != {} && n != 0 {
      var items := Descending(s, n);
      var m := items[0];
      assert IsTop(s, m) && items[1..] == Descending(s - {m}, n - 1) by { TopExists(s); }
      PageIsTheGreatest(s - {m}, n - 1);
      forall i, j | 0 <= i < j < |items|
        ensures Below(items[j], items[i])
      {
        assert items[j] == items[1..][j - 1] && items[j] in s - {m};
        if i > 0 { assert items[i] == items[1..][i - 1]; }
      }
      forall k <- s, i | 0 <= i < |items|
        ensures k in items || Below(k, items[i])
      {
        if k != m && i > 0 { assert items[i] == items[1..][i - 1]; }
      }
      forall k <- items
        ensures k in s
      {
        var i :| 0 <= i < |items| && items[i] == k;
        if i > 0 { assert items[i] == items[1..][i - 1]; }
      }
    }
  }

  /** The page ends exactly when fewer rows than the limit are left. */
  lemma PageEnds(f: Format, table: set<Key>, cursor: Option<Key>, limit: nat)
    requires limit >= 1
    ensures PageOf(f, table, cursor, limit).next.None? <==> |Under(table, cursor)| < limit
  {
    PageIsTheGreatest(Under(table, cursor), limit);
  }

  // ---- following next_cursor ----

  /** ended says that the last page had a null cursor. */
  datatype Walked = Walked(items: seq<Key>, ended: bool, pages: nat)

  /** Page i is read from tables[i]; the walk stops at a null cursor or when tables run out. */
  ghost function Walk(f: Format, tables: seq<set<Key>>, limit: real, cursor: Option<string>): Walked
    decreases |tables|
  {
    if tables == [] then Walked([], false, 0)
    else
      match ListAuditLogs(f, tables[0], Some(limit), cursor)
      case Page(items, None) => Walked(items, true, 1)
      case Page(items, Some(next)) =>
        var rest := Walk(f, tables[1..], limit, Some(next));
        Walked(items + rest.items, rest.ended, rest.pages + 1)
      case _ => Walked([], false, 0)
  }

  function CursorText(f: Format, c: Option<Key>): Option<string> {
    match c case None => None case Some(k) => Some(EncodeCursor(f, k))
  }

  /** A cursor the service gave out is read back as the key it was made of. */
  lemma ListFromCursor(f: Format, table: set<Key>, limit: real, c: Option<Key>)
    requires Faithful(f) && 1.0 <= limit <= 100.0
    ensures ListAuditLogs(f, table, Some(limit), CursorText(f, c)) == PageOf(f, table, c, limit.Floor)
  {
    if c.Some? {
      CursorRoundTrip(f.iso(c.value.at), f.uuid(c.value.id));
      assert EncodeRaw(f.iso(c.value.at), f.uuid(c.value.id)) != "";
    }
  }

  /** Rows are only ever added. */
  predicate Growing(tables: seq<set<Key>>) {
    forall i, j | 0 <= i < j < |tables| :: tables[i] <= tables[j]
  }

  ghost predicate Precedes(c: Option<Key>, k: Key) {
    c.None? || Below(k, c.value)
  }

  function KeysOf(items: seq<Key>): set<Key> {
    set k | k in items
  }

  lemma DistinctItems(items: seq<Key>)
    requires StrictlyDescending(items)
    ensures |KeysOf(items)| == |items|
    decreases items
  {
    if items != [] {
      var rest := items[..|items| - 1];
      assert items[|items| - 1] !in rest && StrictlyDescending(rest);
      hide StrictlyDescending;
      DistinctItems(rest);
      assert KeysOf(items) == KeysOf(rest) + {items[|items| - 1]} by {
        assert items == rest + [items[|items| - 1]];
      }
    }
  }

  lemma PageFacts(f: Format, table: set<Key>, c: Option<Key>, limit: nat)
    requires limit >= 1
    ensures var page := PageOf(f, table, c, limit);
            && StrictlyDescending(page.items)
            && (forall k <- page.items :: k in table && Precedes(c, k))
            && (page.next.None? ==> forall k <- table | Precedes(c, k) :: k in page.items)
  {
    hide Descending, StrictlyDescending;
    var s := Under(table, c);
    PageIsTheGreatest(s, limit);
    var items := Descending(s, limit);
    if |items| != limit {
      DistinctItems(items);
      SameSize(KeysOf(items), s);
    }
  }

  /** A full page's cursor is its last row: exactly the rows not on the page are left below it. */
  lemma NextCursor(f: Format, table: set<Key>, c: Option<Key>, limit: nat)
    requires limit >= 1 && PageOf(f, table, c, limit).next.Some?
    ensures var items := PageOf(f, table, c, limit).items;
            && |items| == limit
            && PageOf(f, table, c, limit).next == CursorText(f, Some(items[limit - 1]))
            && Precedes(c, items[limit - 1])
            && (forall k <- table | Precedes(c, k) :: k in items <==> !Below(k, items[limit - 1]))
  {
    hide Descending;
    PageIsTheGreatest(Under(table, c), limit);
    var items := PageOf(f, table, c, limit).items;
    assert items[limit - 1] in items;
    forall k <- table | Precedes(c, k)
      ensures k in items <==> !Below(k, items[limit - 1])
    {
      assert k in Under(table, c);
      if k in items {
        var i :| 0 <= i < limit && items[i] == k;
        assert i < limit - 1 ==> Below(items[limit - 1], items[i]);
      }
    }
  }

  lemma Joined(a: seq<Key>, b: seq<Key>)
    requires StrictlyDescending(a) && StrictlyDescending(b)
    requires a != [] && forall k <- b :: Below(k, a[|a| - 1])
    ensures StrictlyDescending(a + b)
  {
    forall i, j | 0 <= i < j < |a + b|
      ensures Below((a + b)[j], (a + b)[i])
    {
      if i < |a| <= j {
        assert (a + b)[j] in b;
        assert i < |a| - 1 ==> Below(a[|a| - 1], a[i]);
      }
    }
  }

  lemma NothingDescends()
    ensures StrictlyDescending([])
  {
  }

  lemma {:induction false} WalkOrder(f: Format, tables: seq<set<Key>>, limit: real, c: Option<Key>)
    requires Faithful(f) && 1.0 <= limit <= 100.0 && Growing(tables)
    ensures var w := Walk(f, tables, limit, CursorText(f, c));
            && StrictlyDescending(w.items)
            && (forall k <- w.items :: Precedes(c, k) && tables != [] && k in tables[|tables| - 1])
    decreases |tables|
  {
    hide Faithful, ListAuditLogs, PageOf, StrictlyDescending;
    if tables == [] {
      NothingDescends();
    } else {
      ListFromCursor(f, tables[0], limit, c);
      var page := PageOf(f, tables[0], c, limit.Floor);
      PageFacts(f, tables[0], c, limit.Floor);
      assert tables[0] <= tables[|tables| - 1];
      if page.next.Some? {
        NextCursor(f, tables[0], c, limit.Floor);
        WalkOrder(f, tables[1..], limit, Some(page.items[limit.Floor - 1]));
        Joined(page.items, Walk(f, tables[1..], limit, page.next).items);
      }
    }
  }

  lemma {:induction false} WalkCovers(f: Format, tables: seq<set<Key>>, limit: real, c: Option<Key>, k: Key)
    requires Faithful(f) && 1.0 <= limit <= 100.0 && Growing(tables) && tables != []
    requires Walk(f, tables, limit, CursorText(f, c)).ended
    requires k in tables[0] && Precedes(c, k)
    ensures k in Walk(f, tables, limit, CursorText(f, c)).items
    decreases |tables|
  {
    hide Faithful, ListAuditLogs, PageOf, StrictlyDescending;
    ListFromCursor(f, tables[0], limit, c);
    PageFacts(f, tables[0], c, limit.Floor);
    var page := PageOf(f, tables[0], c, limit.Floor);
    if page.next.Some? {
      NextCursor(f, tables[0], c, limit.Floor);
      if k !in page.items {
        assert |tables| > 1 && tables[0] <= tables[1];
        WalkCovers(f, tables[1..], limit, Some(page.items[limit.Floor - 1]), k);
      }
    }
  }

  /**
   * Main result: whatever is inserted between the pages, the walk returns no row twice, in strictly
   * descending order, and once it ends it has returned every row that was there at the start.
   */
  lemma WalkIsExactlyOnce(f: Format, tables: seq<set<Key>>, limit: real)
    requires Faithful(f) && 1.0 <= limit <= 100.0 && Growing(tables) && tables != []
    ensures var w := Walk(f, tables, limit, None);
            && StrictlyDescending(w.items)
            && |KeysOf(w.items)| == |w.items|
            && (forall k <- w.items :: k in tables[|tables| - 1])
            && (w.ended ==> forall k <- tables[0] :: k in w.items)
  {
    hide Faithful, Walk, StrictlyDescending;
    WalkOrder(f, tables, limit, None);
    DistinctItems(Walk(f, tables, limit, None).items);
    if Walk(f, tables, limit, None).ended {
      forall k <- tables[0]
        ensures k in Walk(f, tables, limit, None).items
      {
        WalkCovers(f, tables, limit, None, k);
      }
    }
  }

  // ---- how long the walk is ----

  /** Nothing is inserted below the cursor while the walk goes on. */
  ghost predicate Undisturbed(tables: seq<set<Key>>, limit: nat, c: Option<Key>)
    requires limit >= 1
    decreases |tables|
  {
    |tables| <= 1 ||
    var items := Descending(Under(tables[0], c), limit);
    |items| == limit ==>
      && Under(tables[1], Some(items[limit - 1])) == Under(tables[0], Some(items[limit - 1]))
      && Undisturbed(tables[1..], limit, Some(items[limit - 1]))
  }

  /** What a full page leaves is everything else. */
  lemma LeftBelow(f: Format, table: set<Key>, c: Option<Key>, limit: nat)
    requires limit >= 1 && PageOf(f, table, c, limit).next.Some?
    ensures |Under(table, c)| >= limit
    ensures |Under(table, Some(PageOf(f, table, c, limit).items[limit - 1]))| == |Under(table, c)| - limit
  {
    hide Descending;
    var s, items := Under(table, c), PageOf(f, table, c, limit).items;
    PageFacts(f, table, c, limit);
    NextCursor(f, table, c, limit);
    DistinctItems(items);
    var taken := KeysOf(items);
    assert taken <= s && Under(table, Some(items[limit - 1])) == s - taken;
    assert |s - taken| == |s| - |taken|;
  }

  /** The rows that so many full pages hold. */
  function RowsOn(pages: nat, limit: nat): nat {
    pages * limit
  }

  lemma OneMorePage(pages: nat, limit: nat)
    ensures RowsOn(0, limit) == 0 && RowsOn(pages + 1, limit) == RowsOn(pages, limit) + limit
  {
  }

  /**
   * With n rows at the start and nothing inserted below the cursor, the walk ends exactly when the
   * pages on offer have room for more than n rows, and then it reads no page more than it needs for that.
   */
  lemma {:induction false} WalkEnds(f: Format, tables: seq<set<Key>>, limit: real, c: Option<Key>)
    requires Faithful(f) && 1.0 <= limit <= 100.0 && tables != [] && Undisturbed(tables, limit.Floor, c)
    ensures var w, n := Walk(f, tables, limit, CursorText(f, c)), |Under(tables[0], c)|;
            && (w.ended <==> n < RowsOn(|tables|, limit.Floor))
            && (w.ended ==> n < RowsOn(w.pages, limit.Floor) <= n + limit.Floor)
            && (!w.ended ==> w.pages == |tables|)
    decreases |tables|
  {
    hide Faithful, ListAuditLogs, Descending, Under, EncodeCursor, RowsOn;
    ListFromCursor(f, tables[0], limit, c);
    PageEnds(f, tables[0], c, limit.Floor);
    OneMorePage(|tables| - 1, limit.Floor);
    OneMorePage(0, limit.Floor);
    if |Under(tables[0], c)| >= limit.Floor {
      LeftBelow(f, tables[0], c, limit.Floor);
      NextCursor(f, tables[0], c, limit.Floor);
      if |tables| > 1 {
        var last := Some(PageOf(f, tables[0], c, limit.Floor).items[limit.Floor - 1]);
        WalkEnds(f, tables[1..], limit, last);
        OneMorePage(Walk(f, tables[1..], limit, CursorText(f, last)).pages, limit.Floor);
      }
    }
  }
}
