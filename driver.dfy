/** `resultsDriver.process_series`: order the match links of a series, parse
    each match with the header flag that `fileExists` dictates, and append all
    rows of the series to the output file. */
module Driver {
  import opened Json
  import opened Outcome
  import opened Payload
  import opened Parser

  /** Python's `str.rfind(c)`: the last position of `c`, or -1. */
  function LastIndexOf(s: string, c: char): (r: int)
    ensures -1 <= r < |s|
    ensures r == -1 <==> forall k :: 0 <= k < |s| ==> s[k] != c
    ensures r >= 0 ==> s[r] == c && forall k :: r < k < |s| ==> s[k] != c
  {
    if s == [] then -1
    else if s[|s| - 1] == c then |s| - 1
    else LastIndexOf(s[..|s| - 1], c)
  }

  /** The sort key `x[x.rfind('=')+1:]`: the text after the last `=`, or the
      whole link when it has none. */
  function SortKey(link: string): (key: string)
    ensures |key| <= |link| && key == link[|link| - |key|..]
    ensures forall k :: 0 <= k < |key| ==> key[k] != '='
    ensures |key| < |link| ==> link[|link| - |key| - 1] == '='
  {
    link[LastIndexOf(link, '=') + 1..]
  }

  /** Python's `a <= b` on strings: lexicographic by code point. */
  predicate LexLe(a: string, b: string) {
    a == [] || (b != [] && (a[0] < b[0] || (a[0] == b[0] && LexLe(a[1..], b[1..]))))
  }

  lemma {:induction false} LexLeTotal(a: string, b: string)
    ensures LexLe(a, b) || LexLe(b, a)
  {
    if a != [] && b != [] && a[0] == b[0] {
      LexLeTotal(a[1..], b[1..]);
    }
  }

  lemma {:induction false} LexLeTrans(a: string, b: string, c: string)
    requires LexLe(a, b) && LexLe(b, c)
    ensures LexLe(a, c)
  {
    if a != [] && b != [] && c != [] && a[0] == b[0] == c[0] {
      LexLeTrans(a[1..], b[1..], c[1..]);
    }
  }

  /** `xs` in ascending order of `key`. */
  ghost predicate SortedBy(key: string -> string, xs: seq<string>) {
    forall i, j :: 0 <= i < j < |xs| ==> LexLe(key(xs[i]), key(xs[j]))
  }

  /** Inserts `x` after every element whose key is not greater than its own,
      so elements with equal keys keep their order. */
  function InsertBy(key: string -> string, x: string, sorted: seq<string>): (r: seq<string>)
    ensures |r| == |sorted| + 1
  {
    if sorted == [] then [x]
    else if !LexLe(key(sorted[0]), key(x)) then [x] + sorted
    else [sorted[0]] + InsertBy(key, x, sorted[1..])
  }

  /** Python's stable `list.sort(key=key)`: each element in turn is inserted
      into the sorted prefix. */
  function SortBy(key: string -> string, xs: seq<string>): (r: seq<string>)
    ensures |r| == |xs|
  {
    if xs == [] then []
    else InsertBy(key, xs[|xs| - 1], SortBy(key, xs[..|xs| - 1]))
  }

  /** Every element of `InsertBy(key, x, sorted)` is `x` or an element of `sorted`. */
  lemma {:induction false} InsertByMultiset(key: string -> string, x: string, sorted: seq<string>)
    ensures multiset(InsertBy(key, x, sorted)) == multiset(sorted) + multiset{x}
  {
    if sorted != [] && LexLe(key(sorted[0]), key(x)) {
      InsertByMultiset(key, x, sorted[1..]);
      assert sorted == [sorted[0]] + sorted[1..];
    }
  }

  /** The tail of a sorted list is sorted. */
  lemma SortedTail(key: string -> string, sorted: seq<string>)
    requires sorted != [] && SortedBy(key, sorted)
    ensures SortedBy(key, sorted[1..])
  {
    forall i, j | 0 <= i < j < |sorted[1..]| ensures LexLe(key(sorted[1..][i]), key(sorted[1..][j])) {
      assert sorted[1..][i] == sorted[i + 1] && sorted[1..][j] == sorted[j + 1];
    }
  }

  /** The first element's key is a lower bound of every key in a sorted list
      with `x` inserted, when it is one for `x`. */
  lemma InsertByLowerBound(key: string -> string, x: string, sorted: seq<string>)
    requires sorted != [] && SortedBy(key, sorted) && LexLe(key(sorted[0]), key(x))
    ensures forall y :: y in InsertBy(key, x, sorted[1..]) ==> LexLe(key(sorted[0]), key(y))
  {
    InsertByMultiset(key, x, sorted[1..]);
    forall y | y in InsertBy(key, x, sorted[1..]) ensures LexLe(key(sorted[0]), key(y)) {
      assert y in multiset(InsertBy(key, x, sorted[1..]));
      if y != x {
        assert y in multiset(sorted[1..]);
        var q :| 0 <= q < |sorted[1..]| && sorted[1..][q] == y;
        assert sorted[q + 1] == y;
      }
    }
  }

  lemma {:induction false} InsertBySorted(key: string -> string, x: string, sorted: seq<string>)
    requires SortedBy(key, sorted)
    ensures SortedBy(key, InsertBy(key, x, sorted))
  {
    if sorted != [] {
      if LexLe(key(sorted[0]), key(x)) {
        SortedTail(key, sorted);
        InsertBySorted(key, x, sorted[1..]);
        InsertByLowerBound(key, x, sorted);
        SortedCons(key, sorted[0], InsertBy(key, x, sorted[1..]));
      } else {
        LexLeTotal(key(sorted[0]), key(x));
        forall y | y in sorted ensures LexLe(key(x), key(y)) {
          var j :| 0 <= j < |sorted| && sorted[j] == y;
          if j > 0 {
            LexLeTrans(key(x), key(sorted[0]), key(y));
          }
        }
        SortedCons(key, x, sorted);
      }
    }
  }

  /** A lower bound of a sorted list sorts in front of it. */
  lemma SortedCons(key: string -> string, x: string, rest: seq<string>)
    requires SortedBy(key, rest)
    requires forall y :: y in rest ==> LexLe(key(x), key(y))
    ensures SortedBy(key, [x] + rest)
  {
    var r := [x] + rest;
    forall i, j | 0 <= i < j < |r| ensures LexLe(key(r[i]), key(r[j])) {
      assert r[j] == rest[j - 1];
      if i > 0 {
        assert r[i] == rest[i - 1];
      }
    }
  }

  /** The sorted list holds the same elements, in ascending order of their
      keys. */
  lemma {:induction false} SortBySorted(key: string -> string, xs: seq<string>)
    ensures SortedBy(key, SortBy(key, xs))
    ensures multiset(SortBy(key, xs)) == multiset(xs)
  {
    if xs != [] {
      var init := xs[..|xs| - 1];
      SortBySorted(key, init);
      InsertBySorted(key, xs[|xs| - 1], SortBy(key, init));
      InsertByMultiset(key, xs[|xs| - 1], SortBy(key, init));
      assert xs == init + [xs[|xs| - 1]];
    }
  }

  /** `map_links.sort(key=lambda x: x[x.rfind('=')+1:])` */
  function SortLinks(links: seq<string>): (r: seq<string>)
    ensures |r| == |links|
  {
    SortBy(SortKey, links)
  }

  /** The sorted links are the same links, in ascending order of their keys
      compared as text. */
  lemma SortLinksSorted(links: seq<string>)
    ensures SortedBy(SortKey, SortLinks(links))
    ensures forall i, j :: 0 <= i < j < |links| ==> LexLe(SortKey(SortLinks(links)[i]), SortKey(SortLinks(links)[j]))
    ensures multiset(SortLinks(links)) == multiset(links)
  {
    SortBySorted(SortKey, links);
  }

  /** The keys are compared as text, not as numbers: the link of match 10
      sorts before the link of match 9. */
  lemma TextualOrder()
    ensures SortKey("/match?id=10") == "10" && SortKey("/match?id=9") == "9"
    ensures SortLinks(["/match?id=9", "/match?id=10"]) == ["/match?id=10", "/match?id=9"]
  {
    assert LastIndexOf("/match?id=10", '=') == 9;
    assert LastIndexOf("/match?id=9", '=') == 9;
    assert !LexLe("9", "10");
    assert SortBy(SortKey, ["/match?id=9"]) == ["/match?id=9"];
  }

  const Site: string := "https://www.rib.gg"

  /** The rows of a series whose sorted links are `links`: the rows of each
      match in turn, the header flag going to the first link only; the first
      error ends the series. */
  function SeriesRows(links: seq<string>, fetch: string -> Option<PageProps>, header: bool): (r: Result<seq<Row>>)
    decreases |links|
  {
    if links == [] then Ok([])
    else
      var first :- Rows(fetch(Site + links[0]), header);
      var rest :- SeriesRows(links[1..], fetch, false);
      Ok(first + rest)
  }

  /** A series yields rows exactly when every one of its matches does, each
      parsed with the flag only if it is the first. */
  lemma {:induction false} SeriesRowsOk(links: seq<string>, fetch: string -> Option<PageProps>, header: bool)
    ensures SeriesRows(links, fetch, header).Ok? <==>
      forall k :: 0 <= k < |links| ==> Rows(fetch(Site + links[k]), header && k == 0).Ok?
    decreases |links|
  {
    if links != [] {
      SeriesRowsOk(links[1..], fetch, false);
      assert forall k :: 1 <= k < |links| ==> links[1..][k - 1] == links[k];
      if SeriesRows(links, fetch, header).Ok? {
        forall k | 0 <= k < |links| ensures Rows(fetch(Site + links[k]), header && k == 0).Ok? {
          if k > 0 {
            assert Rows(fetch(Site + links[1..][k - 1]), false && k - 1 == 0).Ok?;
          }
        }
      } else if Rows(fetch(Site + links[0]), header).Ok? {
        var k :| 0 <= k < |links[1..]| && !Rows(fetch(Site + links[1..][k]), false && k == 0).Ok?;
        assert !Rows(fetch(Site + links[k + 1]), header && k + 1 == 0).Ok?;
      }
    }
  }

  /** A series whose every match was tossed (its fetch discarded, or its page
      an error page) yields no rows, and with them no header: the flag is spent
      on the first link all the same. */
  lemma {:induction false} TossedSeries(links: seq<string>, fetch: string -> Option<PageProps>, header: bool)
    requires forall k :: 0 <= k < |links| ==>
      fetch(Site + links[k]).None? || fetch(Site + links[k]).value.statusCode == Some(Int(500))
    ensures SeriesRows(links, fetch, header) == Ok([])
    decreases |links|
  {
    if links != [] {
      assert forall k :: 0 <= k < |links[1..]| ==> links[1..][k] == links[k + 1];
      TossedSeries(links[1..], fetch, false);
      TossedMatch(fetch(Site + links[0]), header);
      var none: seq<Row> := [];
      assert none + none == none;
    }
  }

  /** Appends `done` in front of the rows still to come. */
  function PrependRows(done: seq<Row>, r: Result<seq<Row>>): Result<seq<Row>> {
    match r
    case Ok(rows) => Ok(done + rows)
    case Err(e) => Err(e)
  }

  /** A series is its first match's rows followed by the rest's. */
  lemma SeriesRowsCons(links: seq<string>, fetch: string -> Option<PageProps>, header: bool)
    requires links != []
    ensures var rows := Rows(fetch(Site + links[0]), header);
      SeriesRows(links, fetch, header) ==
        if rows.Err? then Err(rows.error) else PrependRows(rows.value, SeriesRows(links[1..], fetch, false))
  {
  }

  lemma PrependRowsAssoc(a: seq<Row>, b: seq<Row>, r: Result<seq<Row>>)
    ensures PrependRows(a, PrependRows(b, r)) == PrependRows(a + b, r)
  {
    if r.Ok? {
      assert a + (b + r.value) == (a + b) + r.value;
    }
  }

  /** One more match of the series: its rows join the finished ones, or its
      error ends the series. */
  lemma SeriesRowsStep(links: seq<string>, i: nat, next: nat, fetch: string -> Option<PageProps>, header: bool,
                       done: seq<Row>, rows: Result<seq<Row>>)
    requires i < |links| && next == i + 1 && rows == Rows(fetch(Site + links[i]), header)
    ensures PrependRows(done, SeriesRows(links[i..], fetch, header)) ==
      if rows.Err? then Err(rows.error) else PrependRows(done + rows.value, SeriesRows(links[next..], fetch, false))
  {
    var tail := links[i..];
    assert tail[0] == links[i] && tail[1..] == links[next..];
    SeriesRowsCons(tail, fetch, header);
    if rows.Ok? {
      PrependRowsAssoc(done, rows.value, SeriesRows(links[next..], fetch, false));
    }
  }

  lemma PrependNothing(r: Result<seq<Row>>)
    ensures PrependRows([], r) == r
  {
    if r.Ok? {
      assert [] + r.value == r.value;
    }
  }

  lemma PrependRest(done: seq<Row>, r: Result<seq<Row>>)
    requires r == Ok([])
    ensures PrependRows(done, r) == Ok(done)
  {
    assert done + [] == done;
  }

  /** `fileName += '.csv'` unless `fileName[-4:]` is `.csv` already. */
  function CsvName(name: string): (r: string)
    ensures |r| >= 4 && r[|r| - 4..] == ".csv"
    ensures r == name <==> |name| >= 4 && name[|name| - 4..] == ".csv"
    ensures r != name ==> r == name + ".csv"
  {
    var tail := if |name| >= 4 then name[|name| - 4..] else name;
    if tail != ".csv" then
      CsvSuffix(name);
      name + ".csv"
    else name
  }

  lemma CsvSuffix(name: string)
    ensures |name + ".csv"| == |name| + 4 && (name + ".csv")[|name|..] == ".csv"
  {
  }

  /** The existence check of `__init__` as written: `os.path.isfile` is asked
      about the name as given, while the rows go to the name with `.csv`
      appended. The two agree whenever the name ends in `.csv` already. */
  function ExistsAsWritten(name: string, isFile: string -> bool): (r: bool)
    ensures CsvName(name) == name ==> r == isFile(CsvName(name))
  {
    isFile(name)
  }

  /** For a name without `.csv` the check looks at another file: with only
      `results.csv` on disk, the driver for `results` appends to
      `results.csv` yet reports it absent, so a second header row is written
      into it. */
  lemma StaleExistsCheck()
    ensures var isFile := (s: string) => s == "results.csv";
      && CsvName("results") == "results.csv"
      && isFile(CsvName("results"))
      && !ExistsAsWritten("results", isFile)
  {
    assert "results"[|"results"| - 4..] == "ults";
  }

  class ResultsDriver {
    /** The output file's name, ending in `.csv`. */
    var fileName: string
    /** Whether the output file holds a header already. */
    var fileExists: bool
    /** The rows of the output file. */
    var written: seq<Row>

    /** The file name gets `.csv` appended unless its last four characters
        are `.csv` already; `isFile` tells which files are on disk, and the
        check is made on the file the rows go to. */
    constructor(name: string, isFile: string -> bool)
      ensures |fileName| >= 4 && fileName[|fileName| - 4..] == ".csv"
      ensures fileName == CsvName(name)
      ensures fileExists == isFile(fileName) && written == []
    {
      fileName := CsvName(name);
      fileExists := isFile(CsvName(name));
      written := [];
    }

    /** One series: sort its links, parse each match (the header flag goes to
        the first link seen while no file exists, and `fileExists` is set
        then), and append the rows of all matches once every match is parsed.
        An error in any match ends the series with nothing appended. */
    method ProcessSeries(mapLinks: seq<string>, fetch: string -> Option<PageProps>) returns (r: Result<seq<Row>>)
      modifies this
      ensures fileName == old(fileName)
      ensures fileExists == (old(fileExists) || |mapLinks| > 0)
      ensures r == SeriesRows(SortLinks(mapLinks), fetch, !old(fileExists))
      ensures r.Ok? ==> written == old(written) + r.value
      ensures r.Err? ==> written == old(written)
    {
      var links := SortLinks(mapLinks);
      var matches: seq<Row> := [];
      var i := 0;
      PrependNothing(SeriesRows(links, fetch, !fileExists));
      while i < |links|
        invariant 0 <= i <= |links|
        invariant fileName == old(fileName) && written == old(written)
        invariant fileExists == (old(fileExists) || i > 0)
        invariant SeriesRows(links, fetch, !old(fileExists)) ==
                  PrependRows(matches, SeriesRows(links[i..], fetch, !fileExists))
      {
        var link := Site + links[i];
        var addHeader := false;
        if !fileExists {
          addHeader := true;
          fileExists := true;
        }
        var rows := CsvRows(fetch(link), addHeader);
        var next := i + 1;
        SeriesRowsStep(links, i, next, fetch, addHeader, matches, rows);
        if rows.Err? {
          return Err(rows.error);
        }
        matches := matches + rows.value;
        i := next;
      }
      assert links[i..] == [];
      PrependRest(matches, SeriesRows(links[i..], fetch, !fileExists));
      written := written + matches;
      r := Ok(matches);
    }
  }
}
