/**
 * Row normalisation: spreadsheet rows, one per session, become the ledger.
 * A row is a list of (column, text) cells in header order; every cell text
 * is a string, empty when the spreadsheet cell was blank.
 */
module Data {

  import opened Wrappers
  import opened JsNumbers
  import opened JsStrings
  import opened Seqs
  import opened Ledger

  /** The reserved columns; every other non-empty column is a player's cash-out. */
  const SpecialColumnNames: seq<string> := ["Date", "Type", "Buyin", "Guest", "Guest2", "Rebuys", "Notes"]

  /** What `split[1].trim()` throws for a rebuy segment without a colon. */
  const TrimOfUndefined := "TypeError: Cannot read properties of undefined (reading 'trim')"

  /** What `rebuyStr.split(",")` throws for a row without a Rebuys column. */
  const SplitOfUndefined := "TypeError: Cannot read properties of undefined (reading 'split')"

  datatype Cell = Cell(column: string, text: string)

  type Row = seq<Cell>

  /** A row is an object: its column names are distinct. */
  predicate DistinctColumns(row: Row)
  {
    forall i, j :: 0 <= i < j < |row| ==> row[i].column != row[j].column
  }

  /** `row[column]`; `None` is `undefined`. */
  function Lookup(row: Row, column: string): Option<string>
  {
    if row == [] then None
    else if row[0].column == column then Some(row[0].text)
    else Lookup(row[1..], column)
  }

  lemma {:induction false} LookupFinds(row: Row, k: nat)
    requires DistinctColumns(row) && k < |row|
    ensures Lookup(row, row[k].column) == Some(row[k].text)
  {
    if k > 0 {
      assert row[0].column != row[k].column;
      LookupFinds(row[1..], k - 1);
    }
  }

  /* ---------------------------------------------------------------- */
  /* parseRebuys                                                       */
  /* ---------------------------------------------------------------- */

  /** Player name to the `parseInt` of their rebuy count (`None` is NaN). */
  type RebuyMap = map<string, Option<int>>

  /** One `name: count` segment, decoded. */
  datatype Segment = Segment(name: string, count: Option<int>)

  /**
   * One segment of the rebuy text: `item.trim().split(":")`, then the
   * trimmed first piece names the player and `parseInt` of the trimmed
   * second piece is the count. Without a colon there is no second piece and
   * `.trim()` on it throws, here `None`.
   */
  function ParseSegment(item: string): Option<Segment>
  {
    var split := Split(Trim(item), ':');
    if |split| < 2 then None else Some(Segment(Trim(split[0]), ParseInt(Trim(split[1]))))
  }

  /** The loop of `parseRebuys`, as a fold over its decoded segments: a later segment overwrites. */
  function Decode(segments: seq<Option<Segment>>): Result<RebuyMap>
  {
    if segments == [] then Ok(map[])
    else
      var last := segments[|segments| - 1];
      match Decode(segments[..|segments| - 1])
      case Err(e) => Err(e)
      case Ok(m) => if last.None? then Err(TrimOfUndefined) else Ok(m[last.value.name := last.value.count])
  }

  function ParseSegments(items: seq<string>): (r: seq<Option<Segment>>)
    ensures |r| == |items| && forall i :: 0 <= i < |items| ==> r[i] == ParseSegment(items[i])
  {
    seq(|items|, i requires 0 <= i < |items| => ParseSegment(items[i]))
  }

  /** What `parseRebuys(text)` returns or throws. */
  function RebuysOf(text: string): Result<RebuyMap>
  {
    if text == "" then Ok(map[]) else Decode(ParseSegments(Split(text, ',')))
  }

  method ParseRebuys(text: string) returns (r: Result<RebuyMap>)
    ensures text == "" ==> r == Ok(map[])
    ensures r == RebuysOf(text)
  {
    if text == "" {
      return Ok(map[]);
    }
    var items := Split(text, ',');
    r := DecodeItems(items);
    RebuysOfItems(text, items);
  }

  lemma RebuysOfItems(text: string, items: seq<string>)
    requires text != "" && items == Split(text, ',')
    ensures RebuysOf(text) == Decode(ParseSegments(items))
  {
  }

  /** The loop of `parseRebuys` over the comma-separated items. */
  method DecodeItems(items: seq<string>) returns (r: Result<RebuyMap>)
    ensures r == Decode(ParseSegments(items))
  {
    var rebuys: RebuyMap := map[];
    ghost var segments := ParseSegments(items);
    var i := 0;
    while i < |items|
      invariant 0 <= i <= |items|
      invariant Decode(segments[..i]) == Ok(rebuys)
    {
      assert segments[..i + 1][..i] == segments[..i];
      var segment := ParseSegment(items[i]);
      if segment.None? {
        ErrorPersists(segments, i + 1);
        return Err(TrimOfUndefined);
      }
      rebuys := rebuys[segment.value.name := segment.value.count];
      i := i + 1;
    }
    assert segments[..i] == segments;
    r := Ok(rebuys);
  }

  /** Once a segment has thrown, the rest of the loop never runs. */
  lemma {:induction false} ErrorPersists(segments: seq<Option<Segment>>, k: nat)
    requires k <= |segments| && Decode(segments[..k]).Err?
    ensures Decode(segments) == Decode(segments[..k])
  {
    if k < |segments| {
      assert segments[..|segments| - 1][..k] == segments[..k];
      ErrorPersists(segments[..|segments| - 1], k);
    } else {
      assert segments[..k] == segments;
    }
  }

  /** Decoding fails exactly when some segment throws. */
  lemma {:induction false} DecodeFails(segments: seq<Option<Segment>>)
    ensures Decode(segments).Err? <==> None in segments
    ensures Decode(segments).Err? ==> Decode(segments).error == TrimOfUndefined
  {
    if segments != [] {
      DecodeFails(segments[..|segments| - 1]);
      assert segments == segments[..|segments| - 1] + [segments[|segments| - 1]];
    }
  }

  /** Whether a segment holds a colon once trimmed. */
  predicate HasColon(item: string)
  {
    ':' in Trim(item)
  }

  /** A segment throws exactly when it has no colon. */
  lemma SegmentFails(item: string)
    ensures ParseSegment(item).None? <==> !HasColon(item)
  {
    SplitCount(Trim(item), ':');
  }

  /** Some segment throws exactly when some segment has no colon. */
  lemma SegmentsFail(items: seq<string>)
    ensures None in ParseSegments(items) <==> exists i :: 0 <= i < |items| && !HasColon(items[i])
  {
    var segments := ParseSegments(items);
    if None in segments {
      var i :| 0 <= i < |segments| && segments[i] == None;
      SegmentFails(items[i]);
    }
    if exists i :: 0 <= i < |items| && !HasColon(items[i]) {
      var i :| 0 <= i < |items| && !HasColon(items[i]);
      SegmentFails(items[i]);
      assert segments[i] == None;
    }
  }

  /** `parseRebuys` throws exactly when a non-empty text has a segment without a colon. */
  lemma RebuysFail(text: string)
    ensures RebuysOf(text).Err? <==>
      text != "" && exists i :: 0 <= i < |Split(text, ',')| && !HasColon(Split(text, ',')[i])
    ensures RebuysOf(text).Err? ==> RebuysOf(text).error == TrimOfUndefined
  {
    if text != "" {
      RebuysDecode(text);
      SegmentsFail(Split(text, ','));
    }
  }

  lemma RebuysDecode(text: string)
    requires text != ""
    ensures RebuysOf(text).Err? <==> None in ParseSegments(Split(text, ','))
    ensures RebuysOf(text).Err? ==> RebuysOf(text).error == TrimOfUndefined
  {
    DecodeFails(ParseSegments(Split(text, ',')));
  }

  /** A trailing comma leaves an empty last segment, so it throws. */
  lemma RebuysTrailingComma(text: string)
    requires text != "" && text[|text| - 1] == ','
    ensures RebuysOf(text).Err?
  {
    var items := Split(text, ',');
    SplitTrailing(text, ',');
    assert Trim(items[|items| - 1]) == "";
    RebuysFail(text);
  }

  /** The decoded map names exactly the players the segments name. */
  lemma {:induction false} DecodeKeys(segments: seq<Option<Segment>>, k: string)
    requires Decode(segments).Ok?
    ensures k in Decode(segments).value <==> Some(k) in NamesOf(segments)
  {
    if segments != [] {
      var init := segments[..|segments| - 1];
      DecodeKeys(init, k);
      assert NamesOf(segments) == NamesOf(init) + [Some(segments[|segments| - 1].value.name)];
    }
  }

  /** The player each segment names (`None` for a segment that throws). */
  function NamesOf(segments: seq<Option<Segment>>): (r: seq<Option<string>>)
    ensures |r| == |segments|
    ensures forall i :: 0 <= i < |segments| ==> r[i] == if segments[i].Some? then Some(segments[i].value.name) else None
  {
    if segments == [] then []
    else
      var last := segments[|segments| - 1];
      NamesOf(segments[..|segments| - 1]) + [if last.Some? then Some(last.value.name) else None]
  }

  /** A later segment naming the same player overwrites an earlier one: the last one wins. */
  lemma {:induction false} DecodeLastWins(segments: seq<Option<Segment>>, i: nat)
    requires Decode(segments).Ok? && i < |segments|
    requires forall j :: i < j < |segments| ==> NamesOf(segments)[j] != NamesOf(segments)[i]
    ensures segments[i].Some?
    ensures segments[i].value.name in Decode(segments).value
    ensures Decode(segments).value[segments[i].value.name] == segments[i].value.count
  {
    var init := segments[..|segments| - 1];
    var last := segments[|segments| - 1];
    assert Decode(init).Ok? && last.Some?;
    if i < |init| {
      assert init[i] == segments[i];
      forall j | i < j < |init| ensures NamesOf(init)[j] != NamesOf(init)[i] {
        assert NamesOf(segments)[j] != NamesOf(segments)[i];
      }
      DecodeLastWins(init, i);
      assert NamesOf(segments)[|segments| - 1] != NamesOf(segments)[i];
      assert last.value.name != segments[i].value.name;
    }
  }

  /**
   * A well-formed rebuy segment, as a sheet would hold it: white space, a
   * player name, a colon, white space, a decimal count and white space.
   */
  datatype RebuyEntry = RebuyEntry(lead: string, name: string, gap: string, count: nat, tail: string)

  function EntryText(e: RebuyEntry): string
  {
    e.lead + e.name + ":" + e.gap + Decimal(e.count) + e.tail
  }

  /** The spacing is white space, and the name holds no colon or comma and is not padded with white space. */
  predicate EntryOk(e: RebuyEntry)
  {
    && AllSpace(e.lead) && AllSpace(e.gap) && AllSpace(e.tail)
    && ':' !in e.name && ',' !in e.name
    && (e.name == [] || (!IsSpace(e.name[0]) && !IsSpace(e.name[|e.name| - 1])))
  }

  /** The rebuy text of a list of entries: their segments joined by commas. */
  function RebuyText(es: seq<RebuyEntry>): string
  {
    Join(Texts(es), ',')
  }

  function Texts(es: seq<RebuyEntry>): (r: seq<string>)
    ensures |r| == |es| && forall i :: 0 <= i < |es| ==> r[i] == EntryText(es[i])
  {
    seq(|es|, i requires 0 <= i < |es| => EntryText(es[i]))
  }

  lemma SpaceHasNo(x: string, c: char)
    requires AllSpace(x) && !IsSpace(c)
    ensures c !in x
  {
  }

  /** The text of a segment between its outer white space. */
  function Core(e: RebuyEntry): string
  {
    e.name + [':'] + e.gap + Decimal(e.count)
  }

  /** Trimming a well-formed segment leaves its core. */
  lemma TrimSegment(e: RebuyEntry)
    requires EntryOk(e)
    ensures Trim(EntryText(e)) == Core(e)
  {
    var core := Core(e);
    var d := Decimal(e.count);
    assert EntryText(e) == e.lead + (core + e.tail);
    if e.name == [] {
      assert core[0] == ':';
    } else {
      assert core[0] == e.name[0];
    }
    assert (core + e.tail)[0] == core[0];
    TrimStartSkips(e.lead, core + e.tail);
    assert core[|core| - 1] == d[|d| - 1];
    DigitNotSpace(d[|d| - 1]);
    TrimEndSkips(core, e.tail);
  }

  lemma DigitsHaveNo(d: string, c: char)
    requires AllDigits(d, 10) && DigitValue(c, 10).None?
    ensures c !in d
  {
    forall i | 0 <= i < |d| ensures d[i] != c {
      assert DigitValue(d[i], 10).Some?;
    }
  }

  /** The core splits at its colon into the name and the count text. */
  lemma SplitSegment(e: RebuyEntry)
    requires EntryOk(e)
    ensures Split(Core(e), ':') == [e.name, e.gap + Decimal(e.count)]
  {
    SpaceHasNo(e.gap, ':');
    DigitsHaveNo(Decimal(e.count), ':');
    assert Core(e) == e.name + [':'] + (e.gap + Decimal(e.count));
    SplitTwo(e.name, ':', e.gap + Decimal(e.count));
  }

  /** The count text, trimmed, is the decimal text alone. */
  lemma TrimCount(gap: string, n: nat)
    requires AllSpace(gap)
    ensures Trim(gap + Decimal(n)) == Decimal(n)
  {
    var d := Decimal(n);
    DigitNotSpace(d[0]);
    TrimStartSkips(gap, d);
    DigitNotSpace(d[|d| - 1]);
    TrimEndSkips(d, "");
    assert d + "" == d;
  }

  /** A well-formed segment decodes to its name and its count. */
  lemma SegmentDecodes(e: RebuyEntry)
    requires EntryOk(e)
    ensures ParseSegment(EntryText(e)) == Some(Segment(e.name, Some(e.count as int)))
  {
    TrimSegment(e);
    SplitSegment(e);
    TrimKeeps(e.name);
    TrimCount(e.gap, e.count);
    ParseDecimal(e.count);
  }

  lemma EntryHasNoComma(e: RebuyEntry)
    requires EntryOk(e)
    ensures ',' !in EntryText(e) && |EntryText(e)| > 0
  {
    SpaceHasNo(e.lead, ',');
    SpaceHasNo(e.gap, ',');
    SpaceHasNo(e.tail, ',');
    DigitsHaveNo(Decimal(e.count), ',');
    assert EntryText(e) == e.lead + e.name + [':'] + e.gap + Decimal(e.count) + e.tail;
  }

  /** Every segment of well-formed entries joined by commas decodes to its entry. */
  lemma EntriesDecode(es: seq<RebuyEntry>)
    requires |es| >= 1 && forall i :: 0 <= i < |es| ==> EntryOk(es[i])
    ensures RebuysOf(RebuyText(es)) == Decode(ParseSegments(Texts(es)))
    ensures forall i :: 0 <= i < |es| ==> ParseSegments(Texts(es))[i] == Some(Segment(es[i].name, Some(es[i].count as int)))
  {
    var items := Texts(es);
    forall i | 0 <= i < |items|
      ensures ',' !in items[i] && |items[i]| > 0
      ensures ParseSegment(items[i]) == Some(Segment(es[i].name, Some(es[i].count as int)))
    {
      EntryHasNoComma(es[i]);
      SegmentDecodes(es[i]);
    }
    JoinSplit(items, ',');
    JoinLength(items, ',');
  }

  /** Segments that all decode give the map from each name to the count of its last segment. */
  lemma {:induction false} DecodeAll(segs: seq<Option<Segment>>, es: seq<RebuyEntry>)
    requires |segs| == |es|
    requires forall i :: 0 <= i < |es| ==> segs[i] == Some(Segment(es[i].name, Some(es[i].count as int)))
    ensures Decode(segs).Ok?
    ensures forall k :: k in Decode(segs).value <==> exists i :: 0 <= i < |es| && es[i].name == k
    ensures forall i :: 0 <= i < |es| && (forall j :: i < j < |es| ==> es[j].name != es[i].name) ==>
      Decode(segs).value[es[i].name] == Some(es[i].count as int)
  {
    DecodeFails(segs);
    var names := NamesOf(segs);
    assert forall i :: 0 <= i < |es| ==> names[i] == Some(es[i].name);
    forall k
      ensures k in Decode(segs).value <==> exists i :: 0 <= i < |es| && es[i].name == k
    {
      DecodeKeys(segs, k);
    }
    forall i | 0 <= i < |es| && (forall j :: i < j < |es| ==> es[j].name != es[i].name)
      ensures Decode(segs).value[es[i].name] == Some(es[i].count as int)
    {
      DecodeLastWins(segs, i);
    }
  }

  /**
   * A rebuy text made of well-formed segments decodes to the map from each
   * named player to the count of the last segment naming them.
   */
  lemma RebuysOfEntries(es: seq<RebuyEntry>)
    requires |es| >= 1 && forall i :: 0 <= i < |es| ==> EntryOk(es[i])
    ensures RebuysOf(RebuyText(es)).Ok?
    ensures forall k :: k in RebuysOf(RebuyText(es)).value <==> exists i :: 0 <= i < |es| && es[i].name == k
    ensures forall i :: 0 <= i < |es| && (forall j :: i < j < |es| ==> es[j].name != es[i].name) ==>
      RebuysOf(RebuyText(es)).value[es[i].name] == Some(es[i].count as int)
  {
    EntriesDecode(es);
    DecodeAll(ParseSegments(Texts(es)), es);
  }

  /* ---------------------------------------------------------------- */
  /* cleanData                                                         */
  /* ---------------------------------------------------------------- */

  /** `rebuys.get(name) || 0`: a missing entry, NaN and 0 all count as no rebuy. */
  function RebuyCount(rebuys: RebuyMap, name: string): int
  {
    if name in rebuys && rebuys[name].Some? then rebuys[name].value else 0
  }

  /** A cell that is neither blank nor reserved is a player's cash-out. */
  predicate IsPersonCell(c: Cell)
  {
    c.text != "" && c.column !in SpecialColumnNames
  }

  /** The entry stored for a player cell: buy-ins paid, cash-out and their difference. */
  function PersonOf(c: Cell, buyin: Option<int>, rebuys: RebuyMap, parseFloat: string -> Num): PersonResult
  {
    var spent := Mul(Fin((RebuyCount(rebuys, c.column) + 1) as real), FromInt(buyin));
    var out := parseFloat(c.text);
    PersonResult(c.column, spent, out, Sub(out, spent))
  }

  /** The entries the column loop stores, in column order. */
  function PeopleOf(cells: seq<Cell>, buyin: Option<int>, rebuys: RebuyMap, parseFloat: string -> Num): seq<PersonResult>
  {
    if cells == [] then []
    else
      var init := PeopleOf(cells[..|cells| - 1], buyin, rebuys, parseFloat);
      var c := cells[|cells| - 1];
      if IsPersonCell(c) then init + [PersonOf(c, buyin, rebuys, parseFloat)] else init
  }

  /** `parseInt(item.Buyin)`; a missing column reads as the text "undefined", which is NaN. */
  function BuyinOf(row: Row): Option<int>
  {
    ParseInt(match Lookup(row, "Buyin") case Some(t) => t case None => "undefined")
  }

  /** The session `cleanData` builds from one row, or the error it throws. */
  function SessionOf(row: Row, parseFloat: string -> Num): Result<Session>
  {
    match Lookup(row, "Rebuys")
    case None => Err(SplitOfUndefined)
    case Some(text) =>
      match RebuysOf(text)
      case Err(e) => Err(e)
      case Ok(rebuys) => Ok(Session(Lookup(row, "Date"), PeopleOf(row, BuyinOf(row), rebuys, parseFloat)))
  }

  /** The body of `cleanData`'s outer loop for one row. */
  method NormalizeRow(row: Row, parseFloat: string -> Num) returns (r: Result<Session>)
    ensures r == SessionOf(row, parseFloat)
  {
    var date := Lookup(row, "Date");
    var buyin := BuyinOf(row);
    var rebuyText := Lookup(row, "Rebuys");
    if rebuyText.None? {
      return Err(SplitOfUndefined);
    }
    var rebuys := ParseRebuys(rebuyText.value);
    if rebuys.Err? {
      return Err(rebuys.error);
    }
    var people := CollectPeople(row, buyin, rebuys.value, parseFloat);
    r := Ok(Session(date, people));
  }

  /** The column loop of `cleanData`: skips blank and reserved cells and stores an entry for every other one. */
  method CollectPeople(row: Row, buyin: Option<int>, rebuys: RebuyMap, parseFloat: string -> Num)
    returns (people: seq<PersonResult>)
    ensures people == PeopleOf(row, buyin, rebuys, parseFloat)
  {
    people := [];
    var i := 0;
    while i < |row|
      invariant 0 <= i <= |row|
      invariant people == PeopleOf(row[..i], buyin, rebuys, parseFloat)
    {
      var c := row[i];
      assert row[..i + 1][..i] == row[..i];
      if c.text != "" && c.column !in SpecialColumnNames {
        var spent := Mul(Fin((RebuyCount(rebuys, c.column) + 1) as real), FromInt(buyin));
        var out := parseFloat(c.text);
        people := people + [PersonResult(c.column, spent, out, Sub(out, spent))];
      }
      i := i + 1;
    }
    assert row[..i] == row;
  }

  /** Applies `f` to each element in order and stops at the first error, as a loop that throws does. */
  function MapUntilError<A, B>(xs: seq<A>, f: A -> Result<B>): Result<seq<B>>
  {
    if xs == [] then Ok([])
    else
      match MapUntilError(xs[..|xs| - 1], f)
      case Err(e) => Err(e)
      case Ok(ys) =>
        match f(xs[|xs| - 1])
        case Err(e) => Err(e)
        case Ok(y) => Ok(ys + [y])
  }

  /** Once an element has failed, the later ones are never looked at. */
  lemma {:induction false} ErrorStops<A, B>(xs: seq<A>, k: nat, f: A -> Result<B>)
    requires k <= |xs| && MapUntilError(xs[..k], f).Err?
    ensures MapUntilError(xs, f) == MapUntilError(xs[..k], f)
  {
    if k < |xs| {
      assert xs[..|xs| - 1][..k] == xs[..k];
      ErrorStops(xs[..|xs| - 1], k, f);
    } else {
      assert xs[..k] == xs;
    }
  }

  /** It fails exactly when some element fails, and otherwise maps every element in order. */
  lemma {:induction false} MapUntilErrorSpec<A, B>(xs: seq<A>, f: A -> Result<B>)
    ensures MapUntilError(xs, f).Err? <==> exists i :: 0 <= i < |xs| && f(xs[i]).Err?
    ensures MapUntilError(xs, f).Ok? ==> |MapUntilError(xs, f).value| == |xs|
    ensures MapUntilError(xs, f).Ok? ==>
      forall i :: 0 <= i < |xs| ==> f(xs[i]) == Ok(MapUntilError(xs, f).value[i])
  {
    if xs != [] {
      var init := xs[..|xs| - 1];
      MapUntilErrorSpec(init, f);
      forall i | 0 <= i < |init|
        ensures init[i] == xs[i]
      {
      }
    }
  }

  /** What `cleanData(rows)` returns: the rows' sessions in order, or the first row's error. */
  function Clean(rows: seq<Row>, parseFloat: string -> Num): Result<seq<Session>>
  {
    MapUntilError(rows, row => SessionOf(row, parseFloat))
  }

  /** `cleanData`: one session per row, in row order, unless some row throws. */
  method CleanData(rows: seq<Row>, parseFloat: string -> Num) returns (r: Result<seq<Session>>)
    ensures r == Clean(rows, parseFloat)
  {
    ghost var f := row => SessionOf(row, parseFloat);
    var sessions: seq<Session> := [];
    var i := 0;
    while i < |rows|
      invariant 0 <= i <= |rows|
      invariant MapUntilError(rows[..i], f) == Ok(sessions)
    {
      assert rows[..i + 1][..i] == rows[..i];
      var session := NormalizeRow(rows[i], parseFloat);
      if session.Err? {
        ErrorStops(rows, i + 1, f);
        return Err(session.error);
      }
      sessions := sessions + [session.value];
      i := i + 1;
    }
    assert rows[..i] == rows;
    r := Ok(sessions);
  }

  /**
   * `cleanData` throws exactly when some row does; otherwise it returns one
   * session per row, in order, each the one built from its row.
   */
  lemma CleanSessions(rows: seq<Row>, parseFloat: string -> Num)
    ensures Clean(rows, parseFloat).Err? <==> exists i :: 0 <= i < |rows| && SessionOf(rows[i], parseFloat).Err?
    ensures Clean(rows, parseFloat).Ok? ==> |Clean(rows, parseFloat).value| == |rows|
    ensures Clean(rows, parseFloat).Ok? ==>
      forall i :: 0 <= i < |rows| ==> SessionOf(rows[i], parseFloat) == Ok(Clean(rows, parseFloat).value[i])
  {
    MapUntilErrorSpec(rows, row => SessionOf(row, parseFloat));
  }

  /* ---------------------------------------------------------------- */
  /* Properties of a normalised session                                */
  /* ---------------------------------------------------------------- */

  /** The players of a row are exactly its non-empty, non-reserved columns, each entry named after its column. */
  lemma {:induction false} PeopleAreColumns(cells: seq<Cell>, buyin: Option<int>, rebuys: RebuyMap, parseFloat: string -> Num, name: string)
    ensures name in Names(PeopleOf(cells, buyin, rebuys, parseFloat)) <==>
      exists i :: 0 <= i < |cells| && cells[i].column == name && IsPersonCell(cells[i])
  {
    if cells != [] {
      var init := cells[..|cells| - 1];
      PeopleAreColumns(init, buyin, rebuys, parseFloat, name);
      var people := PeopleOf(cells, buyin, rebuys, parseFloat);
      var before := PeopleOf(init, buyin, rebuys, parseFloat);
      if IsPersonCell(cells[|cells| - 1]) {
        assert Names(people) == Names(before) + [cells[|cells| - 1].column];
      }
      if exists i :: 0 <= i < |init| && init[i].column == name && IsPersonCell(init[i]) {
        var i :| 0 <= i < |init| && init[i].column == name && IsPersonCell(init[i]);
        assert cells[i] == init[i];
      }
      if exists i :: 0 <= i < |cells| && cells[i].column == name && IsPersonCell(cells[i]) {
        var i :| 0 <= i < |cells| && cells[i].column == name && IsPersonCell(cells[i]);
        if i < |init| { assert init[i] == cells[i]; }
      }
    }
  }

  /**
   * Every stored entry comes from a player cell of the row: `in` is one
   * buy-in per entry plus one per rebuy, `out` is the parsed cell and
   * `net = out - in`.
   */
  lemma {:induction false} EntriesFromCells(cells: seq<Cell>, buyin: Option<int>, rebuys: RebuyMap, parseFloat: string -> Num, k: nat)
    requires k < |PeopleOf(cells, buyin, rebuys, parseFloat)|
    ensures exists i :: (0 <= i < |cells| && IsPersonCell(cells[i])
      && PeopleOf(cells, buyin, rebuys, parseFloat)[k] == PersonOf(cells[i], buyin, rebuys, parseFloat))
  {
    var init := cells[..|cells| - 1];
    var before := PeopleOf(init, buyin, rebuys, parseFloat);
    if k < |before| {
      EntriesFromCells(init, buyin, rebuys, parseFloat, k);
      var i :| 0 <= i < |init| && IsPersonCell(init[i]) && before[k] == PersonOf(init[i], buyin, rebuys, parseFloat);
      assert cells[i] == init[i];
    } else {
      assert PeopleOf(cells, buyin, rebuys, parseFloat)[k] == PersonOf(cells[|cells| - 1], buyin, rebuys, parseFloat);
    }
  }

  /** Distinct columns give distinct players: the session is a well-formed object. */
  lemma {:induction false} PeopleDistinct(cells: seq<Cell>, buyin: Option<int>, rebuys: RebuyMap, parseFloat: string -> Num)
    requires DistinctColumns(cells)
    ensures Distinct(Names(PeopleOf(cells, buyin, rebuys, parseFloat)))
  {
    if cells != [] {
      var init := cells[..|cells| - 1];
      assert DistinctColumns(init);
      PeopleDistinct(init, buyin, rebuys, parseFloat);
      var last := cells[|cells| - 1];
      if IsPersonCell(last) {
        var before := PeopleOf(init, buyin, rebuys, parseFloat);
        PeopleAreColumns(init, buyin, rebuys, parseFloat, last.column);
        assert last.column !in Names(before);
        assert Names(PeopleOf(cells, buyin, rebuys, parseFloat)) == Names(before) + [last.column];
      }
    }
  }

  /**
   * The players of a row: exactly its non-empty, non-reserved columns, each
   * once; every entry's `out` is the parsed cell of that column, its `in`
   * one buy-in plus one per rebuy (`rebuys.get(name) || 0`), and
   * `net = out - in`.
   */
  lemma PeopleOfRow(row: Row, buyin: Option<int>, rebuys: RebuyMap, parseFloat: string -> Num)
    requires DistinctColumns(row)
    ensures var people := PeopleOf(row, buyin, rebuys, parseFloat);
      && Distinct(Names(people))
      && (forall name :: name in Names(people) <==>
            exists i :: 0 <= i < |row| && row[i].column == name && IsPersonCell(row[i]))
      && (forall k :: 0 <= k < |people| ==> EntryOfCell(row, people[k], buyin, rebuys, parseFloat))
  {
    var people := PeopleOf(row, buyin, rebuys, parseFloat);
    PeopleDistinct(row, buyin, rebuys, parseFloat);
    forall name ensures name in Names(people) <==>
      exists i :: 0 <= i < |row| && row[i].column == name && IsPersonCell(row[i])
    {
      PeopleAreColumns(row, buyin, rebuys, parseFloat, name);
    }
    forall k | 0 <= k < |people|
      ensures EntryOfCell(row, people[k], buyin, rebuys, parseFloat)
    {
      EntryOfRow(row, buyin, rebuys, parseFloat, k);
    }
  }

  /**
   * Entry `e` is what `cleanData` stores for the cell of its column:
   * `out` is the parsed cell, `in` one buy-in plus one per rebuy and
   * `net = out - in`.
   */
  predicate EntryOfCell(row: Row, e: PersonResult, buyin: Option<int>, rebuys: RebuyMap, parseFloat: string -> Num)
  {
    && Lookup(row, e.name).Some?
    && Lookup(row, e.name).value != ""
    && e.name !in SpecialColumnNames
    && e.cashOut == parseFloat(Lookup(row, e.name).value)
    && e.cashIn == Mul(Fin((RebuyCount(rebuys, e.name) + 1) as real), FromInt(buyin))
    && e.net == Sub(e.cashOut, e.cashIn)
  }

  lemma EntryOfRow(row: Row, buyin: Option<int>, rebuys: RebuyMap, parseFloat: string -> Num, k: nat)
    requires DistinctColumns(row) && k < |PeopleOf(row, buyin, rebuys, parseFloat)|
    ensures EntryOfCell(row, PeopleOf(row, buyin, rebuys, parseFloat)[k], buyin, rebuys, parseFloat)
  {
    EntriesFromCells(row, buyin, rebuys, parseFloat, k);
    var i :| 0 <= i < |row| && IsPersonCell(row[i])
      && PeopleOf(row, buyin, rebuys, parseFloat)[k] == PersonOf(row[i], buyin, rebuys, parseFloat);
    LookupFinds(row, i);
  }

  /**
   * Session `i` of a successful `cleanData` is dated by row `i`'s Date cell
   * and lists exactly that row's players, each once, with the entry the
   * row's cell, buy-in and decoded rebuy text give it.
   */
  lemma CleanedSession(rows: seq<Row>, parseFloat: string -> Num, i: nat)
    requires Clean(rows, parseFloat).Ok? && i < |rows| && DistinctColumns(rows[i])
    ensures |Clean(rows, parseFloat).value| == |rows|
    ensures var s := Clean(rows, parseFloat).value[i];
      && s.date == Lookup(rows[i], "Date")
      && Lookup(rows[i], "Rebuys").Some?
      && RebuysOf(Lookup(rows[i], "Rebuys").value).Ok?
      && var rebuys := RebuysOf(Lookup(rows[i], "Rebuys").value).value;
      && Distinct(Names(s.people))
      && (forall name :: name in Names(s.people) <==>
            exists j :: 0 <= j < |rows[i]| && rows[i][j].column == name && IsPersonCell(rows[i][j]))
      && (forall k :: 0 <= k < |s.people| ==> EntryOfCell(rows[i], s.people[k], BuyinOf(rows[i]), rebuys, parseFloat))
  {
    CleanSessions(rows, parseFloat);
    var row := rows[i];
    var rebuys := RebuysOf(Lookup(row, "Rebuys").value).value;
    PeopleOfRow(row, BuyinOf(row), rebuys, parseFloat);
  }

  /**
   * With a numeric buy-in `b >= 0` and no negative rebuy count, what a
   * player paid in is a whole number (at least one) of buy-ins.
   */
  lemma CashInIsMultiple(cells: seq<Cell>, b: int, rebuys: RebuyMap, parseFloat: string -> Num, k: nat)
    requires b >= 0
    requires forall name :: name in rebuys && rebuys[name].Some? ==> rebuys[name].value >= 0
    requires k < |PeopleOf(cells, Some(b), rebuys, parseFloat)|
    ensures var e := PeopleOf(cells, Some(b), rebuys, parseFloat)[k];
      var m := RebuyCount(rebuys, e.name) + 1;
      m >= 1 && e.cashIn == Fin(m as real * b as real) && e.cashIn.v >= 0.0
  {
    EntriesFromCells(cells, Some(b), rebuys, parseFloat, k);
  }

  /** Rebuy entries that name no player column of the row change nothing. */
  lemma {:induction false} UnmatchedRebuysIgnored(cells: seq<Cell>, buyin: Option<int>, rebuys: RebuyMap,
                                                  parseFloat: string -> Num, name: string, count: Option<int>)
    requires forall i :: 0 <= i < |cells| && IsPersonCell(cells[i]) ==> cells[i].column != name
    ensures PeopleOf(cells, buyin, rebuys[name := count], parseFloat) == PeopleOf(cells, buyin, rebuys, parseFloat)
  {
    if cells != [] {
      UnmatchedRebuysIgnored(cells[..|cells| - 1], buyin, rebuys, parseFloat, name, count);
    }
  }

}
