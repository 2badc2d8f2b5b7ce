/** The transaction scraper: turning the items of one ESPN transactions
    response into cleaned records (`parse_transactions`,
    `clean_transaction_data`), removing repeated transaction ids, ordering by
    date (`get_daily_transactions`), and the default CSV file name
    (`save_to_csv`). The HTTP request, the wall clock and the CSV file itself
    are outside the model: the response, the `isoformat()` stamp and today's
    date come in as parameters. */
module TransactionScraper {
  import opened Common
  import opened Calendar
  import opened IsoTimestamp
  import opened TextOrder

  /** The placeholder the scraper writes for every missing field. */
  const Unknown := "Unknown"

  // ---------------------------------------------------------------------
  // The response
  // ---------------------------------------------------------------------

  /** A scalar member of an item object: absent, JSON `null`, or a string. */
  datatype Member = Missing | JsonNull | JsonString(text: string)

  /** A member that should hold an object with a `displayName`: absent, such an
      object, or some other JSON value (`null`, a string, a list), on which
      `.get` raises. */
  datatype Nested = NestedMissing | NestedObject(displayName: Member) | NestedOther

  /** One element of `items`: an object with the members the scraper reads,
      or anything that is not an object (on which `.get` raises). */
  datatype Item =
    | ItemObject(id: Member, date: Member, description: Member,
                 kind: Nested, team: Nested, player: Nested)
    | NotAnObject

  /** The `items` member of the response: absent, a value `for` cannot
      iterate (such as `null`), or a list of items. */
  datatype Payload = NoItems | ItemsNotIterable | Items(items: seq<Item>)

  // ---------------------------------------------------------------------
  // The transaction dict and its cleaning
  // ---------------------------------------------------------------------

  /** A Python value in the transaction dict: `None` or a `str`. */
  datatype Value = Null | Str(s: string)

  /** The keys the scraper puts in a transaction dict. */
  datatype Key = DateKey | TypeKey | TeamKey | PlayerKey | DescriptionKey | IdKey | StampKey

  /** The key as it is spelled in the dict and in the CSV header. */
  function KeyName(c: Key): string {
    match c
    case DateKey => "date"
    case TypeKey => "type"
    case TeamKey => "team"
    case PlayerKey => "player"
    case DescriptionKey => "description"
    case IdKey => "transaction_id"
    case StampKey => "scraped_at"
  }

  /** The dict built for one item, keyed by column. */
  type Transaction = map<Key, Value>

  /** The seven columns every parsed transaction has. */
  const AllKeys: set<Key> :=
    {DateKey, TypeKey, TeamKey, PlayerKey, DescriptionKey, IdKey, StampKey}

  /** A value the cleaning leaves alone: a non-empty string. */
  predicate IsKnown(v: Value) {
    v.Str? && v.s != ""
  }

  /** `None` and `''` become `'Unknown'`; anything else stays. */
  function Scrub(v: Value): (w: Value)
    ensures IsKnown(w)
    ensures IsKnown(v) ==> w == v
  {
    if IsKnown(v) then v else Str(Unknown)
  }

  /** The dict after the scrubbing loop of `clean_transaction_data`. */
  function Scrubbed(t: Transaction): (u: Transaction)
    ensures u.Keys == t.Keys
    ensures forall k :: k in u ==> IsKnown(u[k])
  {
    map k | k in t :: Scrub(t[k])
  }

  /** What `clean_transaction_data` returns: every empty or `None` value
      replaced by `'Unknown'`, then the date rewritten to `YYYY-MM-DD` (the
      processing date when it cannot be read). A dict without a `date` key
      raises `KeyError`. The source guards the rewrite with a truth test of
      the date; after the scrubbing that test always holds, so the function
      rewrites unconditionally. */
  function Cleaned(t: Transaction, today: CalendarDate): (r: Result<Transaction>)
    ensures r.Ok? <==> DateKey in t
    ensures r.Ok? ==> r.value.Keys == t.Keys
    ensures r.Ok? ==> forall k :: k in r.value ==> IsKnown(r.value[k])
    ensures r.Ok? ==> r.value[DateKey].Str? && ParseFullDate(r.value[DateKey].s).Some?
  {
    var u := Scrubbed(t);
    if DateKey !in u then Err("KeyError: 'date'")
    else
      var n := NormalizeDate(u[DateKey].s, today);
      var c := u[DateKey := Str(n)];
      assert c.Keys == t.Keys;
      assert forall k :: k in c ==> IsKnown(c[k]);
      Ok(c)
  }

  /** The cleaning, step by step over the keys as the source loops over
      `transaction.items()`. */
  method CleanTransaction(transaction: Transaction, today: CalendarDate) returns (r: Result<Transaction>)
    ensures r == Cleaned(transaction, today)
  {
    var t := transaction;
    var pending := transaction.Keys;
    while pending != {}
      invariant pending <= transaction.Keys
      invariant t.Keys == transaction.Keys
      invariant forall k :: k in t ==> t[k] == (if k in pending then transaction[k] else Scrub(transaction[k]))
      decreases |pending|
    {
      var k :| k in pending;
      if t[k] == Null || t[k] == Str("") {
        t := t[k := Str(Unknown)];
      }
      pending := pending - {k};
    }
    assert t == Scrubbed(transaction);
    if DateKey !in t {
      return Err("KeyError: 'date'");
    }
    var date := t[DateKey];
    if date.Str? && date.s != "" {
      t := t[DateKey := Str(NormalizeDate(date.s, today))];
    }
    r := Ok(t);
  }

  /** Field by field, the values other than the date: each is kept when it
      is a non-empty string and is `'Unknown'` otherwise. */
  lemma CleanedKeepsOtherFields(t: Transaction, today: CalendarDate)
    requires DateKey in t
    ensures forall k :: k in t && k != DateKey ==>
      Cleaned(t, today).value[k] == (if IsKnown(t[k]) then t[k] else Str(Unknown))
  {
    var u := Scrubbed(t);
    assert Cleaned(t, today).value == u[DateKey := Cleaned(t, today).value[DateKey]];
  }

  /** The date: the first ten characters of a readable ISO timestamp, or
      else the processing date (also when the date was empty or `None`). */
  lemma CleanedDate(t: Transaction, today: CalendarDate)
    requires DateKey in t
    ensures Cleaned(t, today).value[DateKey].s ==
      if IsKnown(t[DateKey]) && Accepted(ReplaceZ(t[DateKey].s)) then t[DateKey].s[..10]
      else Format(today)
  {
    if !IsKnown(t[DateKey]) {
      NormalizeUnreadable(Unknown, today);
    }
  }

  /** The example from the project's tests: a `None` type and an empty player
      both become `'Unknown'`, and the team is kept, whatever the date. */
  lemma CleanedExample(date: Value, today: CalendarDate)
    ensures var t := map[DateKey := date, TypeKey := Null, TeamKey := Str("Team A"), PlayerKey := Str("")];
      var c := Cleaned(t, today).value;
      c[TypeKey] == Str(Unknown) && c[PlayerKey] == Str(Unknown) && c[TeamKey] == Str("Team A")
  {
    var t := map[DateKey := date, TypeKey := Null, TeamKey := Str("Team A"), PlayerKey := Str("")];
    CleanedField(t, today, TypeKey);
    CleanedField(t, today, PlayerKey);
    CleanedField(t, today, TeamKey);
  }

  lemma CleanedField(t: Transaction, today: CalendarDate, k: Key)
    requires DateKey in t && k in t && k != DateKey
    ensures Cleaned(t, today).value[k] == Scrub(t[k])
  {
    CleanedKeepsOtherFields(t, today);
  }

  // ---------------------------------------------------------------------
  // Parsing one item
  // ---------------------------------------------------------------------

  /** `item.get(key, default)` on a scalar member. */
  function GetOr(m: Member, default: string): Value {
    match m
    case Missing => Str(default)
    case JsonNull => Null
    case JsonString(s) => Str(s)
  }

  /** `item.get(key, {}).get('displayName', 'Unknown')`; `None` when the
      member is not an object and `.get` raises. */
  function DisplayName(n: Nested): Option<Value> {
    match n
    case NestedMissing => Some(Str(Unknown))
    case NestedObject(m) => Some(GetOr(m, Unknown))
    case NestedOther => None
  }

  /** The dict built for one item, before cleaning; `None` when building it
      raises. */
  function RawTransaction(it: Item, stamp: string): (r: Option<Transaction>)
    ensures r.Some? ==> r.value.Keys == AllKeys
  {
    if it.NotAnObject? then None
    else
      var kind, team, player := DisplayName(it.kind), DisplayName(it.team), DisplayName(it.player);
      if kind.None? || team.None? || player.None? then None
      else
        Some(map[DateKey := GetOr(it.date, ""), TypeKey := kind.value, TeamKey := team.value,
                 PlayerKey := player.value, DescriptionKey := GetOr(it.description, ""),
                 IdKey := GetOr(it.id, ""), StampKey := Str(stamp)])
  }

  /** One row of the parsed table. */
  datatype Record = Record(date: string, kind: string, team: string, player: string,
                           description: string, transactionId: string, scrapedAt: string)

  /** The row a cleaned dict becomes in `pd.DataFrame(transactions)`. */
  function ToRecord(c: Transaction): Record
    requires c.Keys == AllKeys
    requires forall k :: k in c ==> c[k].Str?
  {
    Record(c[DateKey].s, c[TypeKey].s, c[TeamKey].s, c[PlayerKey].s,
           c[DescriptionKey].s, c[IdKey].s, c[StampKey].s)
  }

  /** What the cleaning promises of every row: no field is empty, and the
      date is a canonical `YYYY-MM-DD`. */
  predicate WellFormed(r: Record) {
    r.date != "" && r.kind != "" && r.team != "" && r.player != ""
    && r.description != "" && r.transactionId != "" && r.scrapedAt != ""
    && ParseFullDate(r.date).Some?
  }

  /** An item the `except` clause skips: not an object, or one of `type`,
      `team`, `player` present but not an object. */
  predicate Malformed(it: Item) {
    it.NotAnObject? || it.kind.NestedOther? || it.team.NestedOther? || it.player.NestedOther?
  }

  /** One pass of the loop in `parse_transactions`: the item's row, or
      `None` when the item raises and is skipped. */
  function RecordFor(it: Item, stamp: string, today: CalendarDate): (r: Option<Record>)
    ensures r.None? <==> Malformed(it)
    ensures r.Some? ==> WellFormed(r.value)
  {
    RawTransactionFails(it, stamp);
    match RawTransaction(it, stamp)
    case None => None
    case Some(t) => CleanRow(t, today)
  }

  /** The row a built dict becomes once cleaned. */
  function CleanRow(t: Transaction, today: CalendarDate): (r: Option<Record>)
    requires t.Keys == AllKeys
    ensures r.Some? && WellFormed(r.value)
  {
    match Cleaned(t, today)
    case Ok(c) => ToRecordWellFormed(c); Some(ToRecord(c))
  }

  /** The fields of a cleaned row other than the date are the dict's values
      scrubbed. */
  lemma CleanRowFields(t: Transaction, today: CalendarDate)
    requires t.Keys == AllKeys
    ensures var r := CleanRow(t, today).value;
      && r.kind == Scrub(t[TypeKey]).s && r.team == Scrub(t[TeamKey]).s
      && r.player == Scrub(t[PlayerKey]).s && r.description == Scrub(t[DescriptionKey]).s
      && r.transactionId == Scrub(t[IdKey]).s && r.scrapedAt == Scrub(t[StampKey]).s
  {
    CleanedKeepsOtherFields(t, today);
  }

  /** Building the dict raises exactly on a malformed item. */
  lemma RawTransactionFails(it: Item, stamp: string)
    ensures RawTransaction(it, stamp).None? <==> Malformed(it)
    ensures RawTransaction(it, stamp).Some? ==> DateKey in RawTransaction(it, stamp).value
  {
  }

  /** A cleaned dict makes a well-formed row. */
  lemma ToRecordWellFormed(c: Transaction)
    requires c.Keys == AllKeys
    requires forall k :: k in c ==> c[k].Str? && c[k].s != ""
    requires ParseFullDate(c[DateKey].s).Some?
    ensures WellFormed(ToRecord(c))
  {
  }

  /** The text a scalar member ends up as: its string, or `'Unknown'` when it
      is absent, `null` or empty. */
  function TextOf(m: Member): string {
    if m.JsonString? && m.text != "" then m.text else Unknown
  }

  /** The text a nested `displayName` ends up as. */
  function NameOf(n: Nested): string
    requires !n.NestedOther?
  {
    if n.NestedObject? then TextOf(n.displayName) else Unknown
  }

  /** The dict built for a well-formed item holds the item's members. */
  lemma RawTransactionFields(it: Item, stamp: string)
    requires !Malformed(it)
    ensures var t := RawTransaction(it, stamp).value;
      && t[DateKey] == GetOr(it.date, "")
      && t[TypeKey] == DisplayName(it.kind).value
      && t[TeamKey] == DisplayName(it.team).value
      && t[PlayerKey] == DisplayName(it.player).value
      && t[DescriptionKey] == GetOr(it.description, "")
      && t[IdKey] == GetOr(it.id, "")
      && t[StampKey] == Str(stamp)
  {
  }

  lemma ScrubName(n: Nested)
    requires !n.NestedOther?
    ensures Scrub(DisplayName(n).value).s == NameOf(n)
  {
  }

  lemma ScrubText(m: Member)
    ensures Scrub(GetOr(m, "")).s == TextOf(m)
  {
  }

  /** The row of a well-formed item, stated on the item directly: the
      type, team and player are the nested `displayName`s, or `'Unknown'`
      when absent, `null` or empty. */
  lemma RecordForNames(it: Item, stamp: string, today: CalendarDate)
    requires !Malformed(it)
    ensures var r := RecordFor(it, stamp, today).value;
      && r.kind == NameOf(it.kind)
      && r.team == NameOf(it.team)
      && r.player == NameOf(it.player)
  {
    var t := RawTransaction(it, stamp).value;
    CleanRowFields(t, today);
    assert CleanRow(t, today) == RecordFor(it, stamp, today);
    RawTransactionFields(it, stamp);
    ScrubName(it.kind);
    ScrubName(it.team);
    ScrubName(it.player);
  }

  /** The description and id are the item's own texts, or `'Unknown'`; the
      stamp is the clock text. */
  lemma RecordForTexts(it: Item, stamp: string, today: CalendarDate)
    requires !Malformed(it)
    ensures var r := RecordFor(it, stamp, today).value;
      && r.description == TextOf(it.description)
      && r.transactionId == TextOf(it.id)
      && r.scrapedAt == (if stamp == "" then Unknown else stamp)
  {
    var t := RawTransaction(it, stamp).value;
    CleanRowFields(t, today);
    assert CleanRow(t, today) == RecordFor(it, stamp, today);
    RawTransactionFields(it, stamp);
    ScrubText(it.description);
    ScrubText(it.id);
  }

  /** The row's date is the item's date text normalised; an absent, `null`
      or empty date reads as `'Unknown'`, which normalises to the processing
      date. */
  lemma RecordForDate(it: Item, stamp: string, today: CalendarDate)
    requires !Malformed(it)
    ensures RecordFor(it, stamp, today).value.date == NormalizeDate(TextOf(it.date), today)
  {
    var t := RawTransaction(it, stamp).value;
    assert t[DateKey] == GetOr(it.date, "");
    var u := Scrubbed(t);
    assert u[DateKey].s == TextOf(it.date);
  }

  // ---------------------------------------------------------------------
  // Parsing the response
  // ---------------------------------------------------------------------

  /** `f` applied to each element in order, keeping the `Some` results: the
      shape of a loop whose `except` clause skips the element that raised. */
  function KeepSome<A, B>(f: A -> Option<B>, xs: seq<A>): (ys: seq<B>)
    ensures |ys| <= |xs|
    decreases |xs|
  {
    if xs == [] then []
    else
      var init := KeepSome(f, xs[..|xs| - 1]);
      match f(xs[|xs| - 1])
      case None => init
      case Some(y) => init + [y]
  }

  /** When no element is skipped, the `i`-th result comes from the `i`-th
      element. */
  lemma {:induction false} KeepSomeOfTotal<A, B>(f: A -> Option<B>, xs: seq<A>)
    requires forall i :: 0 <= i < |xs| ==> f(xs[i]).Some?
    ensures |KeepSome(f, xs)| == |xs|
    ensures forall i :: 0 <= i < |xs| ==> KeepSome(f, xs)[i] == f(xs[i]).value
    decreases |xs|
  {
    if xs != [] {
      var init := xs[..|xs| - 1];
      KeepSomeOfTotal(f, init);
      forall i | 0 <= i < |xs| ensures KeepSome(f, xs)[i] == f(xs[i]).value {
        if i < |init| {
          assert xs[i] == init[i];
        }
      }
    }
  }

  /** Every result comes from some element, and every element that is not
      skipped contributes its result. */
  lemma {:induction false} KeepSomeMembers<A, B>(f: A -> Option<B>, xs: seq<A>)
    ensures forall y :: y in KeepSome(f, xs) ==> exists i :: 0 <= i < |xs| && f(xs[i]) == Some(y)
    ensures forall i :: 0 <= i < |xs| && f(xs[i]).Some? ==> f(xs[i]).value in KeepSome(f, xs)
    decreases |xs|
  {
    if xs != [] {
      var init := xs[..|xs| - 1];
      KeepSomeMembers(f, init);
      forall y | y in KeepSome(f, xs)
        ensures exists i :: 0 <= i < |xs| && f(xs[i]) == Some(y)
      {
        if y in KeepSome(f, init) {
          var i :| 0 <= i < |init| && f(init[i]) == Some(y);
          assert xs[i] == init[i];
        } else {
          assert f(xs[|xs| - 1]) == Some(y);
        }
      }
      forall i | 0 <= i < |xs| && f(xs[i]).Some?
        ensures f(xs[i]).value in KeepSome(f, xs)
      {
        if i < |init| {
          assert xs[i] == init[i];
        }
      }
    }
  }

  /** When every element is skipped, nothing is kept. */
  lemma {:induction false} KeepSomeOfNone<A, B>(f: A -> Option<B>, xs: seq<A>)
    requires forall i :: 0 <= i < |xs| ==> f(xs[i]).None?
    ensures KeepSome(f, xs) == []
    decreases |xs|
  {
    if xs != [] {
      KeepSomeOfNone(f, xs[..|xs| - 1]);
    }
  }

  /** Keeping the results of two stretches one after the other is keeping
      the results of the whole: the order of the elements is the order of
      the results. */
  lemma {:induction false} KeepSomeAppend<A, B>(f: A -> Option<B>, a: seq<A>, b: seq<A>)
    ensures KeepSome(f, a + b) == KeepSome(f, a) + KeepSome(f, b)
    decreases |b|
  {
    if b == [] {
      assert a + b == a;
    } else {
      var init := b[..|b| - 1];
      assert (a + b)[..|a + b| - 1] == a + init;
      assert (a + b)[|a + b| - 1] == b[|b| - 1];
      KeepSomeAppend(f, a, init);
    }
  }

  /** One element gives its result, or nothing when it is skipped. */
  lemma KeepSomeOne<A, B>(f: A -> Option<B>, x: A)
    ensures KeepSome(f, [x]) == if f(x).Some? then [f(x).value] else []
  {
    assert [x][..0] == [];
  }

  /** The rows of a list of items, in item order, skipping the items that
      raise. */
  function ParsedItems(items: seq<Item>, stamp: string, today: CalendarDate): (rs: seq<Record>)
    ensures |rs| <= |items|
    ensures forall r :: r in rs ==> WellFormed(r)
  {
    var f := it => RecordFor(it, stamp, today);
    KeepSomeMembers(f, items);
    KeepSome(f, items)
  }

  /** `parse_transactions`: no `items` member is an empty table, and an
      `items` that cannot be iterated raises. */
  function Parsed(payload: Payload, stamp: string, today: CalendarDate): Result<seq<Record>> {
    match payload
    case NoItems => Ok([])
    case ItemsNotIterable => Err("TypeError: 'items' is not iterable")
    case Items(items) => Ok(ParsedItems(items, stamp, today))
  }

  /** `parse_transactions`, looping over the items as the source does. */
  method ParseTransactions(payload: Payload, stamp: string, today: CalendarDate)
    returns (r: Result<seq<Record>>)
    ensures r == Parsed(payload, stamp, today)
  {
    if payload.ItemsNotIterable? {
      return Err("TypeError: 'items' is not iterable");
    }
    var items := if payload.Items? then payload.items else [];
    var transactions := [];
    for i := 0 to |items|
      invariant transactions == ParsedItems(items[..i], stamp, today)
    {
      assert items[..i + 1][..i] == items[..i];
      var raw := RawTransaction(items[i], stamp);
      if raw.Some? {
        var cleaned := CleanTransaction(raw.value, today);
        if cleaned.Ok? {
          transactions := transactions + [ToRecord(cleaned.value)];
        }
      }
    }
    assert items[..|items|] == items;
    r := Ok(transactions);
  }

  /** When no item is malformed, every item gives exactly its own row, in
      order. */
  lemma ParsedAllWellFormed(items: seq<Item>, stamp: string, today: CalendarDate)
    requires forall i :: 0 <= i < |items| ==> !Malformed(items[i])
    ensures |ParsedItems(items, stamp, today)| == |items|
    ensures forall i :: 0 <= i < |items| ==>
      ParsedItems(items, stamp, today)[i] == RecordFor(items[i], stamp, today).value
  {
    KeepSomeOfTotal(it => RecordFor(it, stamp, today), items);
  }

  /** Nothing is invented and nothing well-formed is lost: every row comes
      from some item, and every well-formed item's row is in the table. */
  lemma ParsedExactlyTheWellFormed(items: seq<Item>, stamp: string, today: CalendarDate)
    ensures forall r :: r in ParsedItems(items, stamp, today) ==>
      exists i :: 0 <= i < |items| && RecordFor(items[i], stamp, today) == Some(r)
    ensures forall i :: 0 <= i < |items| && !Malformed(items[i]) ==>
      RecordFor(items[i], stamp, today).value in ParsedItems(items, stamp, today)
  {
    KeepSomeMembers(it => RecordFor(it, stamp, today), items);
  }

  /** The rows of two runs of items are the rows of the first run followed
      by those of the second, so the rows keep the items' order. */
  lemma ParsedItemsAppend(a: seq<Item>, b: seq<Item>, stamp: string, today: CalendarDate)
    ensures ParsedItems(a + b, stamp, today) ==
      ParsedItems(a, stamp, today) + ParsedItems(b, stamp, today)
  {
    KeepSomeAppend(it => RecordFor(it, stamp, today), a, b);
  }

  /** A single item gives exactly its own row, or none when it is malformed.
      With `ParsedItemsAppend` this fixes the parsed table completely. */
  lemma ParsedItemsOne(it: Item, stamp: string, today: CalendarDate)
    ensures ParsedItems([it], stamp, today) ==
      if Malformed(it) then [] else [RecordFor(it, stamp, today).value]
  {
    KeepSomeOne(it => RecordFor(it, stamp, today), it);
  }

  // ---------------------------------------------------------------------
  // Removing repeated ids
  // ---------------------------------------------------------------------

  /** `a` is `b` with some elements left out, the rest in their order. */
  predicate IsSubsequence<T(==)>(a: seq<T>, b: seq<T>)
    decreases |b|
  {
    if a == [] then true
    else if b == [] then false
    else (a[0] == b[0] && IsSubsequence(a[1..], b[1..])) || IsSubsequence(a, b[1..])
  }

  function IdsOf(rs: seq<Record>): set<string> {
    set r | r in rs :: r.transactionId
  }

  lemma IdsOfCons(r: Record, rs: seq<Record>)
    ensures IdsOf([r] + rs) == {r.transactionId} + IdsOf(rs)
  {
    assert forall x :: x in [r] + rs <==> x == r || x in rs;
  }

  /** Rearranging the rows keeps the set of ids. */
  lemma IdsOfPermutation(a: seq<Record>, b: seq<Record>)
    requires multiset(a) == multiset(b)
    ensures IdsOf(a) == IdsOf(b)
  {
    assert forall x :: x in a <==> x in multiset(a);
    assert forall x :: x in b <==> x in multiset(b);
  }

  predicate UniqueIds(rs: seq<Record>) {
    forall i, j :: 0 <= i < j < |rs| ==> rs[i].transactionId != rs[j].transactionId
  }

  /** The first row with the given id. */
  function FirstWithId(rs: seq<Record>, id: string): (r: Record)
    requires id in IdsOf(rs)
    ensures r in rs && r.transactionId == id
  {
    if rs[0].transactionId == id then rs[0]
    else
      assert id in IdsOf(rs[1..]) by {
        var x :| x in rs && x.transactionId == id;
        assert x != rs[0];
      }
      FirstWithId(rs[1..], id)
  }

  /** The rows whose id is neither in `seen` nor on an earlier row. */
  function KeepFirst(rs: seq<Record>, seen: set<string>): (r: seq<Record>)
    ensures IsSubsequence(r, rs)
    ensures UniqueIds(r)
    ensures IdsOf(r) == IdsOf(rs) - seen
    decreases |rs|
  {
    if rs == [] then []
    else
      assert rs == [rs[0]] + rs[1..];
      if rs[0].transactionId in seen then
        var r := KeepFirst(rs[1..], seen);
        SkipFirst(rs[0], r, rs[1..], seen);
        r
      else
        var tail := KeepFirst(rs[1..], seen + {rs[0].transactionId});
        KeepFirstStep(rs[0], tail, rs[1..], seen);
        [rs[0]] + tail
  }

  /** The step of `KeepFirst` that drops a row whose id was seen. */
  lemma SkipFirst(x: Record, r: seq<Record>, rest: seq<Record>, seen: set<string>)
    requires x.transactionId in seen
    requires IsSubsequence(r, rest) && IdsOf(r) == IdsOf(rest) - seen
    ensures IsSubsequence(r, [x] + rest) && IdsOf(r) == IdsOf([x] + rest) - seen
  {
    IdsOfCons(x, rest);
    assert ([x] + rest)[1..] == rest;
  }

  /** The step of `KeepFirst` that keeps a row whose id is new. */
  lemma KeepFirstStep(x: Record, tail: seq<Record>, rest: seq<Record>, seen: set<string>)
    requires x.transactionId !in seen
    requires IsSubsequence(tail, rest) && UniqueIds(tail)
    requires IdsOf(tail) == IdsOf(rest) - (seen + {x.transactionId})
    ensures var r := [x] + tail;
      IsSubsequence(r, [x] + rest) && UniqueIds(r) && IdsOf(r) == IdsOf([x] + rest) - seen
  {
    var r := [x] + tail;
    assert r[1..] == tail;
    assert ([x] + rest)[1..] == rest;
    IdsOfCons(x, rest);
    IdsOfCons(x, tail);
    forall j | 0 < j < |r| ensures r[j].transactionId in IdsOf(tail) {
      assert r[j] == tail[j - 1];
    }
  }

  /** `drop_duplicates(subset=['transaction_id'], keep='first')`. */
  function DropDuplicateIds(rs: seq<Record>): seq<Record> {
    KeepFirst(rs, {})
  }

  lemma {:induction false} KeepFirstTakesFirst(rs: seq<Record>, seen: set<string>)
    ensures forall x :: x in KeepFirst(rs, seen) ==>
      x.transactionId in IdsOf(rs) && x == FirstWithId(rs, x.transactionId)
    decreases |rs|
  {
    if rs != [] {
      var r := KeepFirst(rs, seen);
      assert forall x :: x in r ==> x.transactionId in IdsOf(r);
      if rs[0].transactionId in seen {
        KeepFirstTakesFirst(rs[1..], seen);
      } else {
        KeepFirstTakesFirst(rs[1..], seen + {rs[0].transactionId});
      }
    }
  }

  /** The deduplicated table keeps each id once, on the first row that had
      it, in the original order, and loses no id. */
  lemma DropDuplicateIdsKeepsFirst(rs: seq<Record>)
    ensures UniqueIds(DropDuplicateIds(rs))
    ensures IsSubsequence(DropDuplicateIds(rs), rs)
    ensures IdsOf(DropDuplicateIds(rs)) == IdsOf(rs)
    ensures forall x :: x in DropDuplicateIds(rs) ==>
      x.transactionId in IdsOf(rs) && x == FirstWithId(rs, x.transactionId)
  {
    KeepFirstTakesFirst(rs, {});
  }

  /** A row added at the end is kept exactly when its id is new. */
  lemma {:induction false} KeepFirstSnoc(rs: seq<Record>, x: Record, seen: set<string>)
    ensures KeepFirst(rs + [x], seen) ==
      KeepFirst(rs, seen) + if x.transactionId in IdsOf(rs) + seen then [] else [x]
    decreases |rs|
  {
    if rs == [] {
      assert [] + [x] == [x];
      assert [x][1..] == [];
    } else {
      assert (rs + [x])[0] == rs[0];
      assert (rs + [x])[1..] == rs[1..] + [x];
      IdsOfCons(rs[0], rs[1..]);
      assert rs == [rs[0]] + rs[1..];
      if rs[0].transactionId in seen {
        KeepFirstSnoc(rs[1..], x, seen);
      } else {
        KeepFirstSnoc(rs[1..], x, seen + {rs[0].transactionId});
      }
    }
  }

  /** `keep='first'` as pandas scans the table: the kept rows of a table
      with one more row are the kept rows so far, followed by that row when
      its id did not occur before. With `DropDuplicateIds([]) == []` this
      fixes the result, order included. */
  lemma DropDuplicateIdsSnoc(rs: seq<Record>, x: Record)
    ensures DropDuplicateIds(rs + [x]) ==
      DropDuplicateIds(rs) + if x.transactionId in IdsOf(rs) then [] else [x]
  {
    KeepFirstSnoc(rs, x, {});
    assert IdsOf(rs) + {} == IdsOf(rs);
  }

  /** A table whose ids are already distinct is left as it is. */
  lemma {:induction false} KeepFirstOfUnique(rs: seq<Record>, seen: set<string>)
    requires UniqueIds(rs)
    requires forall r :: r in rs ==> r.transactionId !in seen
    ensures KeepFirst(rs, seen) == rs
    decreases |rs|
  {
    if rs != [] {
      KeepFirstOfUnique(rs[1..], seen + {rs[0].transactionId});
    }
  }

  /** Deduplication is idempotent. */
  lemma DropDuplicateIdsIdempotent(rs: seq<Record>)
    ensures DropDuplicateIds(DropDuplicateIds(rs)) == DropDuplicateIds(rs)
  {
    KeepFirstOfUnique(DropDuplicateIds(rs), {});
  }

  /** The example from the project's tests: three rows of which the first
      and the last share an id leave the first two. */
  lemma DropDuplicateIdsExample(a: Record, b: Record, c: Record)
    requires a.transactionId == c.transactionId != b.transactionId
    ensures DropDuplicateIds([a, b, c]) == [a, b]
  {
    assert [a, b, c][1..] == [b, c] && [b, c][1..] == [c];
    var seen: set<string> := {};
    assert seen + {a.transactionId} == {a.transactionId};
    assert KeepFirst([c], {a.transactionId} + {b.transactionId}) == [];
    assert KeepFirst([b, c], {a.transactionId}) == [b];
    assert KeepFirst([a, b, c], seen) == [a] + KeepFirst([b, c], seen + {a.transactionId});
  }

  // ---------------------------------------------------------------------
  // Ordering by date
  // ---------------------------------------------------------------------

  /** `sort_values('date')` on string dates: each row's date is at or before
      the next row's in Python's string order. */
  predicate SortedByDate(rs: seq<Record>) {
    forall i :: 0 < i < |rs| ==> LexLe(rs[i - 1].date, rs[i].date)
  }

  /** Sorted means every earlier date is at or before every later one. */
  lemma {:induction false} SortedByDateAllPairs(rs: seq<Record>)
    requires SortedByDate(rs)
    ensures forall i, j :: 0 <= i <= j < |rs| ==> LexLe(rs[i].date, rs[j].date)
    decreases |rs|
  {
    if rs != [] {
      var init := rs[..|rs| - 1];
      SortedByDateAllPairs(init);
      forall i, j | 0 <= i <= j < |rs| ensures LexLe(rs[i].date, rs[j].date) {
        if j < |rs| - 1 {
          assert rs[i] == init[i] && rs[j] == init[j];
        } else if i == j {
          LexLeReflexive(rs[i].date);
        } else {
          assert rs[i] == init[i] && rs[j - 1] == init[j - 1];
          LexLeTransitive(rs[i].date, rs[j - 1].date, rs[j].date);
        }
      }
    }
  }

  function InsertByDate(x: Record, rs: seq<Record>): (r: seq<Record>)
    requires SortedByDate(rs)
    ensures SortedByDate(r)
    ensures multiset(r) == multiset(rs) + multiset{x}
    ensures |r| == |rs| + 1 && (r[0] == x || (rs != [] && r[0] == rs[0]))
    decreases |rs|
  {
    if rs == [] || LexLe(x.date, rs[0].date) then
      PrependSorted(x, rs);
      [x] + rs
    else
      LexLeTotal(x.date, rs[0].date);
      SortedTail(rs);
      var tail := InsertByDate(x, rs[1..]);
      assert rs == [rs[0]] + rs[1..];
      PrependSorted(rs[0], tail);
      [rs[0]] + tail
  }

  lemma SortedTail(rs: seq<Record>)
    requires rs != [] && SortedByDate(rs)
    ensures SortedByDate(rs[1..])
  {
    assert forall i :: 0 <= i < |rs| - 1 ==> rs[1..][i] == rs[i + 1];
  }

  /** A row whose date is at or before the first date of a sorted table
      can go in front of it. */
  lemma PrependSorted(x: Record, rs: seq<Record>)
    requires SortedByDate(rs)
    requires rs != [] ==> LexLe(x.date, rs[0].date)
    ensures SortedByDate([x] + rs)
  {
    var r := [x] + rs;
    forall i | 0 < i < |r| ensures LexLe(r[i - 1].date, r[i].date) {
      if i > 1 {
        assert r[i - 1] == rs[i - 2] && r[i] == rs[i - 1];
      }
    }
  }

  /** The table ordered by date: sorted, and the same rows. */
  function SortByDate(rs: seq<Record>): (r: seq<Record>)
    ensures SortedByDate(r)
    ensures multiset(r) == multiset(rs)
    decreases |rs|
  {
    if rs == [] then []
    else
      assert rs == rs[..|rs| - 1] + [rs[|rs| - 1]];
      InsertByDate(rs[|rs| - 1], SortByDate(rs[..|rs| - 1]))
  }

  lemma {:induction false} InsertByDateKeepsUnique(x: Record, rs: seq<Record>)
    requires SortedByDate(rs) && UniqueIds(rs) && x.transactionId !in IdsOf(rs)
    ensures UniqueIds(InsertByDate(x, rs))
    decreases |rs|
  {
    if rs == [] || LexLe(x.date, rs[0].date) {
      PrependKeepsUnique(x, rs);
    } else {
      SortedTail(rs);
      UniqueTail(rs);
      var tail := InsertByDate(x, rs[1..]);
      InsertByDateKeepsUnique(x, rs[1..]);
      IdsOfPermutation(tail, rs[1..] + [x]);
      IdsOfSnoc(rs[1..], x);
      PrependKeepsUnique(rs[0], tail);
    }
  }

  /** Behind the first row of a list with distinct ids come the other ids. */
  lemma UniqueTail(rs: seq<Record>)
    requires rs != [] && UniqueIds(rs)
    ensures UniqueIds(rs[1..])
    ensures IdsOf(rs) == {rs[0].transactionId} + IdsOf(rs[1..])
    ensures rs[0].transactionId !in IdsOf(rs[1..])
  {
    assert forall j :: 0 <= j < |rs| - 1 ==> rs[1..][j] == rs[j + 1];
    IdsOfCons(rs[0], rs[1..]);
    assert rs == [rs[0]] + rs[1..];
  }

  lemma IdsOfSnoc(rs: seq<Record>, x: Record)
    ensures IdsOf(rs + [x]) == IdsOf(rs) + {x.transactionId}
  {
    assert forall y :: y in rs + [x] <==> y in rs || y == x;
  }

  /** A row whose id is new keeps the ids distinct when put in front. */
  lemma PrependKeepsUnique(x: Record, rs: seq<Record>)
    requires UniqueIds(rs) && x.transactionId !in IdsOf(rs)
    ensures UniqueIds([x] + rs)
  {
    var r := [x] + rs;
    assert forall j :: 0 < j < |r| ==> r[j] == rs[j - 1] && r[j] in rs;
  }

  /** Ordering by date keeps the set of ids, and distinct ids stay
      distinct. */
  lemma {:induction false} SortByDateKeepsIds(rs: seq<Record>)
    ensures IdsOf(SortByDate(rs)) == IdsOf(rs)
    ensures UniqueIds(rs) ==> UniqueIds(SortByDate(rs))
    decreases |rs|
  {
    IdsOfPermutation(SortByDate(rs), rs);
    if rs != [] && UniqueIds(rs) {
      var init, last := rs[..|rs| - 1], rs[|rs| - 1];
      SortByDateKeepsIds(init);
      assert last.transactionId !in IdsOf(init) by {
        assert forall j :: 0 <= j < |init| ==> init[j] == rs[j];
      }
      InsertByDateKeepsUnique(last, SortByDate(init));
    }
  }

  // ---------------------------------------------------------------------
  // The daily collection
  // ---------------------------------------------------------------------

  /** `get_daily_transactions` with the empty day handled: a failed fetch or
      an unreadable `items` is passed on as the error; otherwise the parsed
      rows, without repeated ids, ordered by date. A day with no rows is the
      empty table. */
  function DailyTransactions(fetched: Result<Payload>, stamp: string, today: CalendarDate)
    : (r: Result<seq<Record>>)
    ensures r.Ok? <==> fetched.Ok? && Parsed(fetched.value, stamp, today).Ok?
  {
    match fetched
    case Err(e) => Err(e)
    case Ok(p) =>
      match Parsed(p, stamp, today)
      case Err(e) => Err(e)
      case Ok(rs) => Ok(SortByDate(DropDuplicateIds(rs)))
  }

  /** `get_daily_transactions` as written: on a day whose parse yields no
      row, `pd.DataFrame([])` has no columns. `drop_duplicates` hands an
      empty frame back as it is, and `sort_values('date')` then raises
      `KeyError` for the missing `date` column. */
  function DailyTransactionsAsWritten(fetched: Result<Payload>, stamp: string, today: CalendarDate)
    : (r: Result<seq<Record>>)
    ensures r.Ok? ==> r.value != []
  {
    match DailyTransactions(fetched, stamp, today)
    case Err(e) => Err(e)
    case Ok(rs) => if rs == [] then Err("KeyError: 'date'") else Ok(rs)
  }

  /** Removing repeated ids and then ordering by date keeps well-formed rows
      well-formed, leaves no repeated id, orders the rows and keeps exactly
      the first row of each id. */
  lemma DedupeThenSort(rs: seq<Record>)
    requires forall r :: r in rs ==> WellFormed(r)
    ensures var day := SortByDate(DropDuplicateIds(rs));
      && (forall r :: r in day ==> WellFormed(r))
      && UniqueIds(day)
      && SortedByDate(day)
      && multiset(day) == multiset(DropDuplicateIds(rs))
      && IdsOf(day) == IdsOf(rs)
  {
    DropDuplicateIdsKeepsFirst(rs);
    var kept := DropDuplicateIds(rs);
    var day := SortByDate(kept);
    SortByDateKeepsIds(kept);
    assert forall r :: r in day ==> r in multiset(kept);
    assert forall r :: r in kept ==> r in rs;
  }

  /** What a successful collection promises: every row well-formed, no
      repeated id, ascending dates, and exactly the first row of each id the
      parse produced. */
  lemma DailyTransactionsProperties(fetched: Result<Payload>, stamp: string, today: CalendarDate)
    requires DailyTransactions(fetched, stamp, today).Ok?
    ensures var rs := Parsed(fetched.value, stamp, today).value;
      var day := DailyTransactions(fetched, stamp, today).value;
      && (forall r :: r in day ==> WellFormed(r))
      && UniqueIds(day)
      && SortedByDate(day)
      && multiset(day) == multiset(DropDuplicateIds(rs))
      && IdsOf(day) == IdsOf(rs)
  {
    DedupeThenSort(Parsed(fetched.value, stamp, today).value);
  }

  /** The empty day: the collection as written raises where the corrected one
      returns the empty table. */
  lemma EmptyDayRaisesAsWritten(stamp: string, today: CalendarDate)
    ensures DailyTransactionsAsWritten(Ok(NoItems), stamp, today).Err?
    ensures DailyTransactions(Ok(NoItems), stamp, today) == Ok([])
  {
  }

  /** A day of only malformed items is an empty day too. */
  lemma AllMalformedIsEmpty(items: seq<Item>, stamp: string, today: CalendarDate)
    requires forall i :: 0 <= i < |items| ==> Malformed(items[i])
    ensures ParsedItems(items, stamp, today) == []
  {
    KeepSomeOfNone(it => RecordFor(it, stamp, today), items);
  }

  /** On every day with at least one row the two agree. */
  lemma AsWrittenAgreesOnNonEmptyDays(fetched: Result<Payload>, stamp: string, today: CalendarDate)
    requires DailyTransactions(fetched, stamp, today).Ok?
    requires DailyTransactions(fetched, stamp, today).value != []
    ensures DailyTransactionsAsWritten(fetched, stamp, today) == DailyTransactions(fetched, stamp, today)
  {
  }

  /** `get_daily_transactions`, fetch result in hand. */
  method GetDailyTransactions(fetched: Result<Payload>, stamp: string, today: CalendarDate)
    returns (r: Result<seq<Record>>)
    ensures r == DailyTransactions(fetched, stamp, today)
  {
    if fetched.Err? {
      return Err(fetched.error);
    }
    var parsed := ParseTransactions(fetched.value, stamp, today);
    if parsed.Err? {
      return Err(parsed.error);
    }
    r := Ok(SortByDate(DropDuplicateIds(parsed.value)));
  }

  // ---------------------------------------------------------------------
  // The CSV file name
  // ---------------------------------------------------------------------

  /** The name `save_to_csv` writes to: the given one, or a name keyed by the
      processing date. */
  function CsvFilename(filename: Option<string>, today: CalendarDate): (name: string)
    ensures Truthy(filename) ==> name == filename.value
  {
    if Truthy(filename) then filename.value
    else "data/nfl_transactions_" + Format(today) + ".csv"
  }

  /** Default names of different processing dates differ, so one day's file
      never overwrites another's. */
  lemma CsvFilenamePerDay(a: CalendarDate, b: CalendarDate)
    ensures CsvFilename(None, a) == CsvFilename(None, b) <==> a == b
  {
    var prefix, suffix := "data/nfl_transactions_", ".csv";
    if CsvFilename(None, a) == CsvFilename(None, b) {
      var na, nb := CsvFilename(None, a), CsvFilename(None, b);
      assert Format(a) == na[|prefix|..|prefix| + 10];
      assert Format(b) == nb[|prefix|..|prefix| + 10];
      FormatInjective(a, b);
    }
  }
}
