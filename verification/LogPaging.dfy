/**
 Paging through the log files: an early-terminating reader that skips whole files by
 date, against the simple form that collects every match and slices.
 */
module LogPaging {
  import opened Common

  /** Times are nanoseconds since the epoch; a file's date is a day number. */
  const SECOND: int := 1_000_000_000
  const DAY: int := 86_400 * SECOND

  datatype Entry = Entry(value: nat, timestamp: Option<Time>)

  /** A line that cannot be read, or its text and the JSON value it holds, if it does. */
  datatype Line = Unreadable | Text(text: string, json: Option<Entry>)

  /** A log file: the date its name ends in, and its lines unless it cannot be opened. */
  datatype File = File(date: Option<int>, lines: Option<seq<Line>>)

  datatype Filter = Filter(
    levels: Option<seq<string>>,
    targets: Option<seq<string>>,
    search: Option<string>,
    lowercase: string -> string,
    since: Option<Time>,
    until: Option<Time>)

  // ----- Which lines match -----

  predicate Contains(text: string, needle: string)
  {
    needle <= text || (text != "" && Contains(text[1..], needle))
  }

  predicate NamesOneOf(text: string, field: string, names: Option<seq<string>>)
  {
    names.Some? ==>
      exists i :: 0 <= i < |names.value| && Contains(text, "\"" + field + "\":\"" + names.value[i] + "\"")
  }

  predicate TextPasses(text: string, filter: Filter)
  {
    && NamesOneOf(text, "level", filter.levels)
    && NamesOneOf(text, "target", filter.targets)
    && (filter.search.Some? ==> Contains(filter.lowercase(text), filter.search.value))
  }

  /** An entry without a parseable timestamp is never outside the window. */
  predicate InWindow(entry: Entry, filter: Filter)
  {
    entry.timestamp.Some? ==>
      && (filter.since.Some? ==> filter.since.value <= entry.timestamp.value)
      && (filter.until.Some? ==> entry.timestamp.value <= filter.until.value)
  }

  function Match(line: Line, filter: Filter): seq<Entry>
  {
    match line
    case Unreadable => []
    case Text(text, json) =>
      if TextPasses(text, filter) && json.Some? && InWindow(json.value, filter) then [json.value] else []
  }

  /** The matches of a file, newest first: a file grows at its end. */
  function NewestFirst(lines: seq<Line>, filter: Filter): seq<Entry>
  {
    if lines == [] then [] else Match(lines[|lines| - 1], filter) + NewestFirst(lines[..|lines| - 1], filter)
  }

  // ----- What a match is, spelled out -----

  /** The needle stands in the text at this position. */
  predicate OccursAt(text: string, needle: string, at: nat)
  {
    at + |needle| <= |text| && text[at..at + |needle|] == needle
  }

  lemma {:induction false} ContainsIff(text: string, needle: string)
    ensures Contains(text, needle) <==> exists at: nat :: OccursAt(text, needle, at)
  {
    if needle <= text {
      assert OccursAt(text, needle, 0);
    } else if text != "" {
      ContainsIff(text[1..], needle);
      if Contains(text[1..], needle) {
        var at: nat :| OccursAt(text[1..], needle, at);
        assert text[1..][at..at + |needle|] == text[at + 1..at + 1 + |needle|];
        assert OccursAt(text, needle, at + 1);
      }
      if exists at: nat :: OccursAt(text, needle, at) {
        var at: nat :| OccursAt(text, needle, at);
        if at > 0 {
          assert text[1..][at - 1..at - 1 + |needle|] == text[at..at + |needle|];
          assert OccursAt(text[1..], needle, at - 1);
        }
      }
    }
  }

  /** A line matches exactly when its text names one of the levels as its level and one of
      the targets as its target, contains the search words in lower case, holds a JSON
      value, and that value's timestamp, if it has one, lies within the window, both ends
      included. */
  lemma MatchIff(line: Line, filter: Filter, entry: Entry)
    ensures Match(line, filter) == [entry] <==>
              && line.Text? && line.json == Some(entry)
              && (filter.levels.Some? ==>
                    exists i, at: nat ::
                      && 0 <= i < |filter.levels.value|
                      && OccursAt(line.text, "\"level\":\"" + filter.levels.value[i] + "\"", at))
              && (filter.targets.Some? ==>
                    exists i, at: nat ::
                      && 0 <= i < |filter.targets.value|
                      && OccursAt(line.text, "\"target\":\"" + filter.targets.value[i] + "\"", at))
              && (|| filter.search == None
                  || exists at: nat :: OccursAt(filter.lowercase(line.text), filter.search.value, at))
              && match entry.timestamp
                 case None => true
                 case Some(at) =>
                   && (filter.since == None || filter.since.value <= at)
                   && (filter.until == None || at <= filter.until.value)
    ensures Match(line, filter) == [] || exists e :: Match(line, filter) == [e]
  {
    if line.Text? {
      NamesIff(line.text, "level", filter.levels);
      NamesIff(line.text, "target", filter.targets);
      assert "\"" + "level" + "\":\"" == "\"level\":\"" && "\"" + "target" + "\":\"" == "\"target\":\"";
      if filter.search.Some? { ContainsIff(filter.lowercase(line.text), filter.search.value); }
      if line.json.Some? { assert Match(line, filter) == [] || Match(line, filter) == [line.json.value]; }
    }
  }

  lemma NamesIff(text: string, field: string, names: Option<seq<string>>)
    ensures NamesOneOf(text, field, names) <==>
              (names.Some? ==>
                 exists i, at: nat ::
                   && 0 <= i < |names.value|
                   && OccursAt(text, "\"" + field + "\":\"" + names.value[i] + "\"", at))
  {
    if names.Some? {
      forall i | 0 <= i < |names.value|
        ensures Contains(text, "\"" + field + "\":\"" + names.value[i] + "\"") <==>
                  exists at: nat :: OccursAt(text, "\"" + field + "\":\"" + names.value[i] + "\"", at)
      {
        ContainsIff(text, "\"" + field + "\":\"" + names.value[i] + "\"");
      }
    }
  }

  /** Matches come newest first: the last line of a file before its earlier ones, and a
      file before the ones behind it in the list. */
  lemma NewestComeFirst(lines: seq<Line>, line: Line, files: seq<File>, file: File, filter: Filter)
    ensures NewestFirst(lines + [line], filter) == Match(line, filter) + NewestFirst(lines, filter)
    ensures file.lines == None ==> Matching(files + [file], filter) == Matching(files, filter)
    ensures file.lines == Some(lines) && file.date == None ==>
              Matching(files + [file], filter) == Matching(files, filter) + NewestFirst(lines, filter)
  {
    assert (lines + [line])[..|lines|] == lines;
    assert (files + [file])[..|files|] == files;
  }

  function DayStart(day: int): Time { day * DAY }

  /** The last second of the day, as the reader computes it. */
  function DayEnd(day: int): Time { day * DAY + 86_399 * SECOND }

  predicate Skipped(file: File, filter: Filter)
  {
    file.date.Some? &&
    (|| (filter.since.Some? && DayEnd(file.date.value) < filter.since.value)
     || (filter.until.Some? && DayStart(file.date.value) > filter.until.value))
  }

  function FileMatches(file: File, filter: Filter): seq<Entry>
  {
    if file.lines.None? then [] else NewestFirst(file.lines.value, filter)
  }

  function Contribution(file: File, filter: Filter): seq<Entry>
  {
    if Skipped(file, filter) then [] else FileMatches(file, filter)
  }

  /** Every match of the files not skipped, newest file first. */
  function Matching(files: seq<File>, filter: Filter): seq<Entry>
  {
    if files == [] then []
    else Matching(files[..|files| - 1], filter) + Contribution(files[|files| - 1], filter)
  }

  /** Every match of every file. */
  function MatchingAll(files: seq<File>, filter: Filter): seq<Entry>
  {
    if files == [] then []
    else MatchingAll(files[..|files| - 1], filter) + FileMatches(files[|files| - 1], filter)
  }

  function Slice(entries: seq<Entry>, offset: nat, limit: nat): seq<Entry>
  {
    entries[Min(offset, |entries|)..Min(offset + limit, |entries|)]
  }

  /** A page starts `offset` matches in, and is full unless the matches run out. */
  lemma SliceMeans(entries: seq<Entry>, offset: nat, limit: nat)
    ensures var page := Slice(entries, offset, limit);
            && |page| == (if |entries| <= offset then 0
                          else if |entries| - offset < limit then |entries| - offset else limit)
            && forall i :: 0 <= i < |page| ==> page[i] == entries[offset + i]
  {
  }

  // ----- The reader -----

  function Reversed(entries: seq<Entry>): seq<Entry>
  {
    if entries == [] then [] else [entries[|entries| - 1]] + Reversed(entries[..|entries| - 1])
  }

  lemma {:induction false} ReversedAppend(front: seq<Entry>, back: seq<Entry>)
    ensures Reversed(front + back) == Reversed(back) + Reversed(front)
  {
    if back == [] {
      assert front + back == front;
    } else {
      assert (front + back)[..|front + back| - 1] == front + back[..|back| - 1];
      ReversedAppend(front, back[..|back| - 1]);
    }
  }

  /** One file: collect in reading order, then reverse. */
  method ReadFile(lines: seq<Line>, filter: Filter) returns (matches: seq<Entry>)
    ensures matches == NewestFirst(lines, filter)
  {
    matches := [];
    for i := 0 to |lines|
      invariant Reversed(matches) == NewestFirst(lines[..i], filter)
    {
      assert lines[..i + 1][..i] == lines[..i];
      var line := lines[i];
      if line.Unreadable? { continue; }
      if !TextPasses(line.text, filter) { continue; }
      if line.json.None? { continue; }
      if !InWindow(line.json.value, filter) { continue; }
      ReversedAppend(matches, [line.json.value]);
      matches := matches + [line.json.value];
    }
    assert lines[..|lines|] == lines;
    matches := Reversed(matches);
  }

  /** The page as matches stream in, one at a time. */
  method TakePage(matches: seq<Entry>, seen: nat, page: seq<Entry>, offset: nat, limit: nat, ghost before: seq<Entry>)
    returns (total: nat, entries: seq<Entry>)
    requires seen == |before| && page == Slice(before, offset, limit)
    ensures total == |before| + |matches| && entries == Slice(before + matches, offset, limit)
  {
    total, entries := seen, page;
    for j := 0 to |matches|
      invariant total == |before| + j
      invariant entries == Slice(before + matches[..j], offset, limit)
    {
      assert before + matches[..j + 1] == (before + matches[..j]) + [matches[j]];
      SliceAppend(before + matches[..j], matches[j], offset, limit);
      if total >= offset && |entries| < limit {
        entries := entries + [matches[j]];
      }
      total := total + 1;
    }
    assert matches[..|matches|] == matches;
  }

  /** One more entry goes onto the page when it is past the offset and the page has room. */
  lemma SliceAppend(entries: seq<Entry>, entry: Entry, offset: nat, limit: nat)
    ensures var page := Slice(entries, offset, limit);
            Slice(entries + [entry], offset, limit) ==
            if |entries| >= offset && |page| < limit then page + [entry] else page
  {
    SliceMeans(entries, offset, limit);
    SliceMeans(entries + [entry], offset, limit);
  }

  /** One file, unless it is skipped or cannot be opened. */
  method PageFile(file: File, filter: Filter, seen: nat, page: seq<Entry>, offset: nat, limit: nat,
                  ghost before: seq<Entry>)
    returns (total: nat, entries: seq<Entry>)
    requires seen == |before| && page == Slice(before, offset, limit)
    ensures total == |before + Contribution(file, filter)|
    ensures entries == Slice(before + Contribution(file, filter), offset, limit)
  {
    assert before + [] == before;
    if Skipped(file, filter) { return seen, page; }
    if file.lines.None? { return seen, page; }
    var matches := ReadFile(file.lines.value, filter);
    total, entries := TakePage(matches, seen, page, offset, limit, before);
  }

  /** The early-terminating reader returns the page and the `has_more` of the simple form.
      Its total counts the matches of the shortest run of files that holds more than the
      page needs, and is exact when there is no such run. */
  method ReadMatchingEntries(files: seq<File>, filter: Filter, offset: nat, limit: nat)
    returns (page: seq<Entry>, total: nat, hasMore: bool)
    ensures page == Slice(Matching(files, filter), offset, limit)
    ensures hasMore <==> |Matching(files, filter)| > offset + limit
    ensures !hasMore ==> total == |Matching(files, filter)|
    ensures exists k: nat :: IsStop(files, filter, offset + limit, k) && total == |Matching(files[..k], filter)|
  {
    var pageEnd := offset + limit;
    total, page := 0, [];
    for i := 0 to |files|
      invariant total == |Matching(files[..i], filter)| && total <= pageEnd
      invariant page == Slice(Matching(files[..i], filter), offset, limit)
    {
      MatchingGrows(files, filter, i);
      total, page := PageFile(files[i], filter, total, page, offset, limit, Matching(files[..i], filter));
      if |page| >= limit && total > pageEnd {
        SliceIsSettled(files, filter, i + 1, offset, limit);
        assert IsStop(files, filter, pageEnd, i + 1);
        return page, total, true;
      }
    }
    assert files[..|files|] == files;
    assert IsStop(files, filter, pageEnd, |files|);
    hasMore := total > pageEnd;
  }

  lemma MatchingGrows(files: seq<File>, filter: Filter, i: nat)
    requires i < |files|
    ensures Matching(files[..i + 1], filter) == Matching(files[..i], filter) + Contribution(files[i], filter)
  {
    assert files[..i + 1][..i] == files[..i];
  }

  /** A page that is full is not changed by the files behind it. */
  lemma {:induction false} SliceIsSettled(files: seq<File>, filter: Filter, k: nat, offset: nat, limit: nat)
    requires k <= |files| && |Matching(files[..k], filter)| > offset + limit
    ensures Slice(Matching(files, filter), offset, limit) == Slice(Matching(files[..k], filter), offset, limit)
    ensures |Matching(files, filter)| > offset + limit
    decreases |files|
  {
    if k == |files| {
      assert files[..k] == files;
    } else {
      var front := files[..|files| - 1];
      assert front[..k] == files[..k];
      SliceIsSettled(front, filter, k, offset, limit);
    }
  }

  /** The number of files read: all of them, or as few as overflow the page. */
  ghost predicate IsStop(files: seq<File>, filter: Filter, pageEnd: nat, k: nat)
  {
    && k <= |files|
    && (k < |files| ==> |Matching(files[..k], filter)| > pageEnd)
    && (k > 0 ==> |Matching(files[..k - 1], filter)| <= pageEnd)
  }

  // ----- Skipping files by date -----

  /** Every JSON line carries a parseable timestamp from its file's day, no later than the
      last whole second of that day. */
  predicate WellDated(file: File)
  {
    file.date.Some? && file.lines.Some? ==>
      forall i :: 0 <= i < |file.lines.value| && file.lines.value[i].Text? && file.lines.value[i].json.Some? ==>
        DatedWithin(file.lines.value[i].json.value, file.date.value)
  }

  predicate DatedWithin(entry: Entry, day: int)
  {
    && entry.timestamp.Some?
              && day * 86_400_000_000_000 <= entry.timestamp.value <= day * 86_400_000_000_000 + 86_399_000_000_000
  }

  lemma {:induction false} NoMatchesIff(lines: seq<Line>, filter: Filter)
    ensures NewestFirst(lines, filter) == [] <==> forall i :: 0 <= i < |lines| ==> Match(lines[i], filter) == []
  {
    if lines != [] {
      NoMatchesIff(lines[..|lines| - 1], filter);
      assert forall i :: 0 <= i < |lines| - 1 ==> lines[..|lines| - 1][i] == lines[i];
    }
  }

  const UNFILTERED := Filter(None, None, None, (text: string) => text, None, None)

  /** A window that skips a file but would have let this line of it through. */
  function Exposing(entry: Entry, day: int): Filter
  {
    if entry.timestamp.Some? && entry.timestamp.value < DayStart(day)
    then UNFILTERED.(until := Some(DayStart(day) - 1))
    else UNFILTERED.(since := Some(DayEnd(day) + 1))
  }

  /** Skipping a file by its date is sound for every filter exactly when the file is well
      dated. A line logged within the last second of the day is not. */
  lemma SkippingIsSoundIff(file: File)
    ensures (forall filter :: Skipped(file, filter) ==> FileMatches(file, filter) == []) <==> WellDated(file)
  {
    if WellDated(file) {
      forall filter | Skipped(file, filter) ensures FileMatches(file, filter) == [] {
        if file.lines.Some? { NoMatchesIff(file.lines.value, filter); }
      }
    } else {
      var i :| 0 <= i < |file.lines.value| && file.lines.value[i].Text? && file.lines.value[i].json.Some?
               && !DatedWithin(file.lines.value[i].json.value, file.date.value);
      var filter := Exposing(file.lines.value[i].json.value, file.date.value);
      assert Match(file.lines.value[i], filter) != [];
      NoMatchesIff(file.lines.value, filter);
      assert Skipped(file, filter) && FileMatches(file, filter) != [];
    }
  }

  /** Over well-dated files, skipping never changes the matching sequence. */
  lemma {:induction false} SkippingKeepsMatches(files: seq<File>, filter: Filter)
    requires forall i :: 0 <= i < |files| ==> WellDated(files[i])
    ensures Matching(files, filter) == MatchingAll(files, filter)
  {
    if files != [] {
      SkippingKeepsMatches(files[..|files| - 1], filter);
      SkippingIsSoundIff(files[|files| - 1]);
    }
  }

  /** Half a second before midnight is inside the window, and its file is skipped. */
  lemma LastSecondIsLost()
    ensures var entry := Entry(1, Some(DAY - SECOND / 2));
            var file := File(Some(0), Some([Text("{}", Some(entry))]));
            var filter := UNFILTERED.(since := Some(DAY - SECOND / 2));
            InWindow(entry, filter) && Matching([file], filter) == [] && MatchingAll([file], filter) == [entry]
  {
    var entry := Entry(1, Some(DAY - SECOND / 2));
    var file := File(Some(0), Some([Text("{}", Some(entry))]));
    var filter := UNFILTERED.(since := Some(DAY - SECOND / 2));
    assert NewestFirst([], filter) == [];
    assert [file][..0] == [];
    assert file.lines.value[..0] == [];
    assert Match(file.lines.value[0], filter) == [entry];
  }
}
