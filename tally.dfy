/**
 * The persisted ballot store and what the results panel derives from it:
 * the grand total, the chart series and the rows of the exported CSV file.
 *
 * `store.votes` is a JavaScript object built with `Object.fromEntries` from
 * the configured parties. The model represents it as a sequence of `Count`
 * entries, one per party id in configured order; the chart and the export
 * walk the parties rather than the object, and the sum of the counters does
 * not depend on the order, so nothing here relies on JavaScript's key order.
 */
module Tally {
  import opened Text
  import opened Seqs

  /** One configured party: its id (the key of its counter), display name and logo reference. */
  datatype Party = Party(id: string, name: string, logo: string)

  /** One property of `store.votes`: a party id and its count. */
  datatype Count = Count(id: string, n: nat)

  /** The persisted aggregate `store`. */
  datatype Store = Store(votes: seq<Count>, voidVotes: nat, ended: bool, usedCredentials: seq<string>)

  /** One entry of `chartData`: a bar label and its height. */
  datatype Bar = Bar(name: string, votes: nat)

  function Ids(v: seq<Count>): (r: seq<string>)
    ensures |r| == |v| && forall i | 0 <= i < |v| :: r[i] == v[i].id
  {
    seq(|v|, i requires 0 <= i < |v| => v[i].id)
  }

  /**
   * A usable party configuration: the fresh counters have distinct keys, so
   * `Object.fromEntries` merges no two parties into one counter.
   */
  predicate Configured(parties: seq<Party>) {
    Distinct(Ids(ZeroVotes(parties)))
  }

  /**
   * `store.votes` has the keys of the fresh store, in the same order: one
   * counter per configured party, in configured order.
   */
  predicate Conforms(s: Store, parties: seq<Party>) {
    Ids(s.votes) == Ids(ZeroVotes(parties))
  }

  /** `store.votes.hasOwnProperty(id)`. */
  predicate HasKey(v: seq<Count>, id: string) {
    id in Ids(v)
  }

  /** `store.votes[id]` for a key that is present. */
  function Get(v: seq<Count>, id: string): (n: nat)
    requires HasKey(v, id)
  {
    if v[0].id == id then v[0].n else Get(v[1..], id)
  }

  /** With distinct ids, the counter of the entry at position `i` is the value stored for its id. */
  lemma {:induction false} GetAt(v: seq<Count>, i: nat)
    requires Distinct(Ids(v)) && i < |v|
    ensures HasKey(v, v[i].id) && Get(v, v[i].id) == v[i].n
  {
    assert Ids(v)[i] == v[i].id;
    if i > 0 {
      assert Ids(v)[0] != Ids(v)[i];
      assert Ids(v[1..]) == Ids(v)[1..];
      GetAt(v[1..], i - 1);
    }
  }

  /** Sum of the counters: `Object.values(store.votes).reduce((a, b) => a + b, 0)`. */
  function Sum(v: seq<Count>): nat
  {
    if v == [] then 0 else v[0].n + Sum(v[1..])
  }

  /** `totalVotes`: every party counter plus the void ballots. */
  function Total(s: Store): nat
  {
    Sum(s.votes) + s.voidVotes
  }

  /**
   * `{ ...votes, [id]: votes[id] + 1 }`: the counter of `id` goes up by one,
   * every other counter and the order of the keys stay as they were, and so
   * the sum of the counters goes up by exactly one.
   */
  function Increment(v: seq<Count>, id: string): (r: seq<Count>)
    requires HasKey(v, id)
    ensures Ids(r) == Ids(v)
    ensures Get(r, id) == Get(v, id) + 1
    ensures forall q | q != id && HasKey(v, q) :: Get(r, q) == Get(v, q)
    ensures Sum(r) == Sum(v) + 1
  {
    if v[0].id == id then [v[0].(n := v[0].n + 1)] + v[1..]
    else
      assert Ids(v[1..]) == Ids(v)[1..];
      var r := [v[0]] + Increment(v[1..], id);
      assert r[1..] == Increment(v[1..], id);
      r
  }

  /** `Object.fromEntries(parties.map(p => [p.id, 0]))`. */
  function ZeroVotes(parties: seq<Party>): (r: seq<Count>)
    ensures |r| == |parties| && forall i | 0 <= i < |r| :: r[i] == Count(parties[i].id, 0)
    ensures Sum(r) == 0
  {
    if parties == [] then []
    else
      var r := [Count(parties[0].id, 0)] + ZeroVotes(parties[1..]);
      assert r[1..] == ZeroVotes(parties[1..]);
      r
  }

  /**
   * The store a fresh election starts from: every party at zero, no void
   * ballots, voting open and no credential used.
   */
  function InitialStore(parties: seq<Party>): (s: Store)
    ensures Conforms(s, parties)
    ensures Total(s) == 0
    ensures forall i | 0 <= i < |s.votes| :: s.votes[i].n == 0
    ensures s.voidVotes == 0 && !s.ended && s.usedCredentials == []
  {
    Store(ZeroVotes(parties), 0, false, [])
  }

  /** Every configured party has a counter in a conforming store. */
  lemma PartyHasKey(s: Store, parties: seq<Party>, i: nat)
    requires Conforms(s, parties) && i < |parties|
    ensures HasKey(s.votes, parties[i].id)
  {
    assert Ids(ZeroVotes(parties))[i] == parties[i].id;
  }

  // ---------------------------------------------------------------------------
  // chartData
  // ---------------------------------------------------------------------------

  /**
   * `parties.map(p => ({ name: p.name, votes: store.votes[p.id] }))
   *   .concat([{ name: "Void", votes: store.voidVotes }])`.
   */
  function ChartData(parties: seq<Party>, s: Store): (r: seq<Bar>)
    requires Conforms(s, parties)
  {
    seq(|parties|, i requires 0 <= i < |parties| =>
      PartyHasKey(s, parties, i);
      Bar(parties[i].name, Get(s.votes, parties[i].id)))
    + [Bar("Void", s.voidVotes)]
  }

  function BarSum(bars: seq<Bar>): nat
  {
    if bars == [] then 0 else bars[0].votes + BarSum(bars[1..])
  }

  lemma {:induction false} BarSumAppend(a: seq<Bar>, b: Bar)
    ensures BarSum(a + [b]) == BarSum(a) + b.votes
  {
    if a != [] {
      assert (a + [b])[1..] == a[1..] + [b];
      BarSumAppend(a[1..], b);
    }
  }

  lemma {:induction false} BarSumMatchesSum(bars: seq<Bar>, v: seq<Count>)
    requires |bars| == |v|
    requires forall i | 0 <= i < |v| :: bars[i].votes == v[i].n
    ensures BarSum(bars) == Sum(v)
  {
    if v != [] {
      BarSumMatchesSum(bars[1..], v[1..]);
    }
  }

  /**
   * The chart lists the parties in configured order with their counts, then
   * one trailing "Void" bar; the bars add up to `totalVotes`.
   */
  lemma ChartDataShape(parties: seq<Party>, s: Store)
    requires Configured(parties) && Conforms(s, parties)
    ensures var r := ChartData(parties, s);
      && |r| == |parties| + 1
      && r[|parties|] == Bar("Void", s.voidVotes)
      && (forall i | 0 <= i < |parties| :: r[i].name == parties[i].name && r[i].votes == s.votes[i].n)
      && BarSum(r) == Total(s)
  {
    var r := ChartData(parties, s);
    var bars := r[..|parties|];
    forall i | 0 <= i < |parties| ensures r[i].votes == s.votes[i].n {
      assert Ids(s.votes)[i] == Ids(ZeroVotes(parties))[i] == parties[i].id;
      GetAt(s.votes, i);
    }
    BarSumMatchesSum(bars, s.votes);
    assert r == bars + [Bar("Void", s.voidVotes)];
    BarSumAppend(bars, Bar("Void", s.voidVotes));
  }

  // ---------------------------------------------------------------------------
  // exportCSV
  // ---------------------------------------------------------------------------

  /**
   * The `rows` of `exportCSV`: a header, one `name,count` row per party in
   * configured order, a `Void` row and a `Total` row.
   */
  function CsvRows(parties: seq<Party>, s: Store): (rows: seq<seq<string>>)
    requires Conforms(s, parties)
  {
    [["Candidate", "Votes"]]
    + seq(|parties|, i requires 0 <= i < |parties| =>
        PartyHasKey(s, parties, i);
        [parties[i].name, DecimalString(Get(s.votes, parties[i].id))])
    + [["Void", DecimalString(s.voidVotes)], ["Total", DecimalString(Total(s))]]
  }

  /** `rows.map(r => r.join(",")).join("\n")`. */
  function CsvText(parties: seq<Party>, s: Store): string
    requires Conforms(s, parties)
  {
    var rows := CsvRows(parties, s);
    Join(seq(|rows|, i requires 0 <= i < |rows| => Join(rows[i], ',')), '\n')
  }

  /** How a spreadsheet reads the file back: lines on `\n`, cells on `,`. */
  function ParseCsv(text: string): seq<seq<string>>
  {
    var lines := Split(text, '\n');
    seq(|lines|, i requires 0 <= i < |lines| => Split(lines[i], ','))
  }

  /** Party names a CSV cell can hold unquoted. */
  predicate PlainNames(parties: seq<Party>) {
    forall i | 0 <= i < |parties| :: ',' !in parties[i].name && '\n' !in parties[i].name
  }

  lemma DigitsHaveNoSeparator(s: string)
    requires AllDigits(s)
    ensures ',' !in s && '\n' !in s
  {
  }

  /**
   * The exported rows: |parties| + 3 of them. The header comes first, then
   * one `name,count` row per party in configured order, then `Void,count`
   * and `Total,count`. Every count is the decimal numeral of the number
   * (no leading zero), and it reads back as that party's counter,
   * `voidVotes` or `totalVotes`.
   */
  lemma CsvRowsShape(parties: seq<Party>, s: Store)
    requires Configured(parties) && Conforms(s, parties)
    ensures var rows := CsvRows(parties, s);
      && |rows| == |parties| + 3
      && rows[0] == ["Candidate", "Votes"]
      && (forall i | 0 <= i < |parties| ::
            rows[i + 1] == [parties[i].name, DecimalString(s.votes[i].n)]
            && DecimalValue(rows[i + 1][1]) == s.votes[i].n)
      && rows[|parties| + 1] == ["Void", DecimalString(s.voidVotes)]
      && DecimalValue(rows[|parties| + 1][1]) == s.voidVotes
      && rows[|parties| + 2] == ["Total", DecimalString(Total(s))]
      && DecimalValue(rows[|parties| + 2][1]) == Total(s)
  {
    var rows := CsvRows(parties, s);
    forall i | 0 <= i < |parties|
      ensures rows[i + 1] == [parties[i].name, DecimalString(s.votes[i].n)]
    {
      assert Ids(s.votes)[i] == Ids(ZeroVotes(parties))[i] == parties[i].id;
      GetAt(s.votes, i);
    }
    forall i | 0 <= i < |parties| ensures DecimalValue(DecimalString(s.votes[i].n)) == s.votes[i].n {
      DecimalRoundTrip(s.votes[i].n);
    }
    DecimalRoundTrip(s.voidVotes);
    DecimalRoundTrip(Total(s));
  }

  /** Every cell of an exported row is free of both separators when the party names are. */
  lemma CsvCellsPlain(parties: seq<Party>, s: Store, i: nat)
    requires Conforms(s, parties) && PlainNames(parties)
    requires i < |parties| + 3
    ensures var row := CsvRows(parties, s)[i];
      row != [] && forall k | 0 <= k < |row| :: ',' !in row[k] && '\n' !in row[k]
  {
    var row := CsvRows(parties, s)[i];
    assert |row| == 2;
    if 1 <= i <= |parties| {
      assert row[0] == parties[i - 1].name;
    }
    if i > 0 {
      DigitsHaveNoSeparator(row[1]);
    }
  }

  /**
   * Splitting the exported text on newlines and then on commas gives back
   * exactly the rows it was built from, as long as no party name holds a
   * comma or a newline (the export does no quoting).
   */
  lemma CsvRoundTrip(parties: seq<Party>, s: Store)
    requires Conforms(s, parties) && PlainNames(parties)
    ensures ParseCsv(CsvText(parties, s)) == CsvRows(parties, s)
  {
    var rows := CsvRows(parties, s);
    var lines := seq(|rows|, i requires 0 <= i < |rows| => Join(rows[i], ','));
    forall i | 0 <= i < |rows| ensures '\n' !in lines[i] && Split(lines[i], ',') == rows[i] {
      CsvCellsPlain(parties, s, i);
      NotInJoin(rows[i], ',', '\n');
      SplitJoin(rows[i], ',');
    }
    SplitJoin(lines, '\n');
  }
}
