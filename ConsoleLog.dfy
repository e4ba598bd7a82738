/**
 * The console log aggregator (`ConsoleLogHandler`, aidoc/AiDoc.py:67-101).
 *
 * Every browser log entry is stored; entries at level SEVERE, ERROR or
 * WARNING ("significant" entries below) are also classified, and a
 * per-category counter is kept in a dictionary whose keys stay in the order
 * in which each category was first seen. The dictionary is modelled by a map
 * of counts and the sequence of its keys in insertion order.
 */
module ConsoleLog {
  import opened Wrappers
  import opened Text
  import opened ErrorCategory
  import Colors

  /** A browser log record: a dictionary any of whose keys may be missing. */
  datatype LogEntry = LogEntry(
    level: Option<string>,
    message: Option<string>,
    source: Option<string>,
    timestamp: Option<int>)  // milliseconds since the epoch

  predicate IsSignificantLevel(level: string) {
    level == "SEVERE" || level == "ERROR" || level == "WARNING"
  }

  /** `log_entry.get('level') in ['SEVERE', 'ERROR', 'WARNING']` */
  predicate IsSignificant(e: LogEntry) {
    e.level.Some? && IsSignificantLevel(e.level.value)
  }

  /** `log_entry.get('message', '')` */
  function MessageOf(e: LogEntry): string {
    e.message.GetOr("")
  }

  function CategoryOf(e: LogEntry): Category {
    Categorize(MessageOf(e))
  }

  /** `counts.get(c, 0)` */
  function CountOr0(counts: map<Category, nat>, c: Category): nat {
    if c in counts then counts[c] else 0
  }

  /*
   * The aggregator's state as functions of the stored entries. Each is
   * defined by the last entry, the way `add_log` extends the state.
   */

  /** The significant entries, in insertion order. */
  function Significant(logs: seq<LogEntry>): (r: seq<LogEntry>)
    ensures |r| <= |logs|
    ensures forall i | 0 <= i < |r| :: IsSignificant(r[i]) && r[i] in logs
  {
    if logs == [] then []
    else
      var last := logs[|logs| - 1];
      Significant(logs[..|logs| - 1]) + if IsSignificant(last) then [last] else []
  }

  /** The category counters after `add_log` of each entry in turn. */
  function CountsOf(logs: seq<LogEntry>): (counts: map<Category, nat>)
    ensures forall c | c in counts :: counts[c] > 0
  {
    if logs == [] then map[]
    else
      var counts, last := CountsOf(logs[..|logs| - 1]), logs[|logs| - 1];
      if IsSignificant(last) then counts[CategoryOf(last) := CountOr0(counts, CategoryOf(last)) + 1]
      else counts
  }

  /** The counter dictionary's keys in insertion order: categories by first occurrence. */
  function FirstSeen(logs: seq<LogEntry>): seq<Category> {
    if logs == [] then []
    else
      var order, last := FirstSeen(logs[..|logs| - 1]), logs[|logs| - 1];
      if IsSignificant(last) && CategoryOf(last) !in order then order + [CategoryOf(last)]
      else order
  }

  /** Reference count: the significant entries of category `c`, counted from the front. */
  function Count(logs: seq<LogEntry>, c: Category): nat {
    if logs == [] then 0
    else (if IsSignificant(logs[0]) && CategoryOf(logs[0]) == c then 1 else 0) + Count(logs[1..], c)
  }

  predicate NoDuplicates<T(==)>(s: seq<T>) {
    forall i, j | 0 <= i < j < |s| :: s[i] != s[j]
  }

  /** The sum of the counters, taken over the keys in `keys`. */
  function SumCounts(keys: seq<Category>, counts: map<Category, nat>): nat {
    if keys == [] then 0
    else SumCounts(keys[..|keys| - 1], counts) + CountOr0(counts, keys[|keys| - 1])
  }

  lemma {:induction false} CountAppend(logs: seq<LogEntry>, e: LogEntry, c: Category)
    ensures Count(logs + [e], c) == Count(logs, c) + if IsSignificant(e) && CategoryOf(e) == c then 1 else 0
  {
    if logs != [] {
      assert (logs + [e])[1..] == logs[1..] + [e];
      CountAppend(logs[1..], e, c);
    }
  }

  /** Every significant stored entry is among the significant entries. */
  lemma {:induction false} SignificantComplete(logs: seq<LogEntry>)
    ensures forall i | 0 <= i < |logs| :: IsSignificant(logs[i]) ==> logs[i] in Significant(logs)
  {
    if logs != [] {
      var init := logs[..|logs| - 1];
      SignificantComplete(init);
      forall i | 0 <= i < |logs| - 1 && IsSignificant(logs[i]) ensures logs[i] in Significant(logs) {
        assert logs[i] == init[i];
      }
    }
  }

  /** The significant entries of two runs of entries are those of the first, then those of the second. */
  lemma {:induction false} SignificantAppend(a: seq<LogEntry>, b: seq<LogEntry>)
    ensures Significant(a + b) == Significant(a) + Significant(b)
    decreases |b|
  {
    if b == [] {
      assert a + b == a;
    } else {
      var init := b[..|b| - 1];
      assert (a + b)[..|a + b| - 1] == a + init;
      SignificantAppend(a, init);
    }
  }

  /** Each counter holds exactly the number of significant entries of its category. */
  lemma {:induction false} CountsOfCountsEachCategory(logs: seq<LogEntry>, c: Category)
    ensures CountOr0(CountsOf(logs), c) == Count(logs, c)
    ensures c in CountsOf(logs) <==> Count(logs, c) > 0
  {
    if logs != [] {
      var init, last := logs[..|logs| - 1], logs[|logs| - 1];
      assert logs == init + [last];
      CountsOfCountsEachCategory(init, c);
      CountAppend(init, last, c);
    }
  }

  /** The key order lists each counted category exactly once. */
  lemma {:induction false} FirstSeenListsKeys(logs: seq<LogEntry>)
    ensures forall c :: c in FirstSeen(logs) <==> c in CountsOf(logs)
    ensures NoDuplicates(FirstSeen(logs))
  {
    if logs != [] {
      FirstSeenListsKeys(logs[..|logs| - 1]);
    }
  }

  /** Categories keep their place: later entries only ever append to the key order. */
  lemma {:induction false} FirstSeenOnlyGrows(logs: seq<LogEntry>, more: seq<LogEntry>)
    ensures FirstSeen(logs) <= FirstSeen(logs + more)
    decreases |more|
  {
    if more != [] {
      var init := more[..|more| - 1];
      assert (logs + more)[..|logs + more| - 1] == logs + init;
      FirstSeenOnlyGrows(logs, init);
      var before := FirstSeen(logs + init);
      assert before <= FirstSeen(logs + more);
      var n := |FirstSeen(logs)|;
      assert FirstSeen(logs + more)[..n] == before[..n];
    } else {
      assert logs + more == logs;
    }
  }

  lemma {:induction false} SumCountsIgnoresOtherKeys(keys: seq<Category>, counts: map<Category, nat>, c: Category, n: nat)
    requires c !in keys
    ensures SumCounts(keys, counts[c := n]) == SumCounts(keys, counts)
  {
    if keys != [] {
      SumCountsIgnoresOtherKeys(keys[..|keys| - 1], counts, c, n);
    }
  }

  lemma {:induction false} SumCountsBump(keys: seq<Category>, counts: map<Category, nat>, c: Category)
    requires NoDuplicates(keys) && c in keys
    ensures SumCounts(keys, counts[c := CountOr0(counts, c) + 1]) == SumCounts(keys, counts) + 1
  {
    var init, last := keys[..|keys| - 1], keys[|keys| - 1];
    if last == c {
      assert c !in init;
      SumCountsIgnoresOtherKeys(init, counts, c, CountOr0(counts, c) + 1);
    } else {
      assert c in init;
      SumCountsBump(init, counts, c);
    }
  }

  /** The invariant of the aggregator: the counters add up to the number of significant entries. */
  lemma {:induction false} SumOfCountsIsSignificantCount(logs: seq<LogEntry>)
    ensures SumCounts(FirstSeen(logs), CountsOf(logs)) == |Significant(logs)|
  {
    if logs != [] {
      var init, last := logs[..|logs| - 1], logs[|logs| - 1];
      SumOfCountsIsSignificantCount(init);
      FirstSeenListsKeys(init);
      if IsSignificant(last) {
        var c, counts, order := CategoryOf(last), CountsOf(init), FirstSeen(init);
        if c in counts {
          SumCountsBump(order, counts, c);
        } else {
          SumCountsIgnoresOtherKeys(order, counts, c, 1);
          assert (order + [c])[..|order|] == order;
        }
      }
    }
  }

  /*
   * The text of `get_formatted_logs`.
   */

  const Rule: string := Repeat('=', 80)
  const SummaryHeader: string := "\n" + Colors.Bold + "Error Summary by Category:" + Colors.EndC
  const Fallback: string := Colors.Green + "No significant console logs found." + Colors.EndC

  function LevelColor(level: string): string {
    if level == "SEVERE" || level == "ERROR" then Colors.Red else Colors.Yellow
  }

  /** Every significant entry has a numeric timestamp, which the rendering divides by 1000. */
  predicate Timestamped(logs: seq<LogEntry>) {
    forall i | 0 <= i < |logs| :: IsSignificant(logs[i]) ==> logs[i].timestamp.Some?
  }

  /**
   * The bordered block of one significant entry. `formatTimestamp` stands
   * for `datetime.fromtimestamp(ms / 1000).strftime(...)[:-3]`.
   */
  function BlockLines(e: LogEntry, formatTimestamp: int -> string): (lines: seq<string>)
    requires e.timestamp.Some?
    ensures |lines| == 7
  {
    var level := e.level.GetOr("INFO");
    [ "\n" + Colors.Yellow + Rule + Colors.EndC,
      Colors.Bold + "LEVEL:" + Colors.EndC + " " + LevelColor(level) + level + Colors.EndC,
      Colors.Bold + "CATEGORY:" + Colors.EndC + " " + Colors.Cyan + Name(CategoryOf(e)) + Colors.EndC,
      Colors.Bold + "SOURCE:" + Colors.EndC + " " + Colors.Blue + e.source.GetOr("") + Colors.EndC,
      Colors.Bold + "TIMESTAMP:" + Colors.EndC + " " + formatTimestamp(e.timestamp.value),
      Colors.Bold + "MESSAGE:" + Colors.EndC + " " + MessageOf(e),
      Colors.Yellow + Rule + Colors.EndC ]
  }

  /** The blocks of all significant entries. */
  function Blocks(logs: seq<LogEntry>, formatTimestamp: int -> string): (lines: seq<string>)
    requires Timestamped(logs)
    ensures |lines| == 7 * |Significant(logs)|
  {
    if logs == [] then []
    else
      var last := logs[|logs| - 1];
      Blocks(logs[..|logs| - 1], formatTimestamp) + if IsSignificant(last) then BlockLines(last, formatTimestamp) else []
  }

  function SummaryLine(c: Category, count: nat): string {
    Colors.Cyan + Name(c) + ":" + Colors.EndC + " " + NatToString(count) + " error(s)"
  }

  /** One summary line per key, in key order. */
  function SummaryLines(order: seq<Category>, counts: map<Category, nat>): (lines: seq<string>)
    ensures |lines| == |order|
  {
    if order == [] then []
    else SummaryLines(order[..|order| - 1], counts) + [SummaryLine(order[|order| - 1], CountOr0(counts, order[|order| - 1]))]
  }

  /** The list `formatted` that `get_formatted_logs` builds. */
  function FormattedLines(logs: seq<LogEntry>, order: seq<Category>, counts: map<Category, nat>,
                          formatTimestamp: int -> string): (lines: seq<string>)
    requires Timestamped(logs)
    ensures |lines| == 7 * |Significant(logs)| + if counts != map[] then 1 + |order| else 0
  {
    Blocks(logs, formatTimestamp) + if counts != map[] then [SummaryHeader] + SummaryLines(order, counts) else []
  }

  /** `'\n'.join(formatted) if formatted else <fallback sentence>` */
  function Render(lines: seq<string>): (text: string)
    ensures lines == [] ==> text == Fallback
    ensures lines != [] ==> lines[0] <= text
  {
    if lines == [] then Fallback else Join(lines, "\n")
  }

  /**
   * The blocks come in insertion order: lines 7k to 7k+6 are the block of the
   * k-th significant entry.
   */
  lemma {:induction false} BlocksInOrder(logs: seq<LogEntry>, formatTimestamp: int -> string, k: nat)
    requires Timestamped(logs)
    requires k < |Significant(logs)|
    ensures Significant(logs)[k].timestamp.Some?
    ensures |Blocks(logs, formatTimestamp)| == 7 * |Significant(logs)|
    ensures Blocks(logs, formatTimestamp)[7 * k..7 * k + 7] == BlockLines(Significant(logs)[k], formatTimestamp)
  {
    var init, last := logs[..|logs| - 1], logs[|logs| - 1];
    var before := Blocks(init, formatTimestamp);
    if k < |Significant(init)| {
      BlocksInOrder(init, formatTimestamp, k);
      assert Blocks(logs, formatTimestamp)[7 * k..7 * k + 7] == before[7 * k..7 * k + 7];
    } else {
      assert Significant(logs)[k] == last;
    }
  }

  lemma {:induction false} SummaryLinesInOrder(order: seq<Category>, counts: map<Category, nat>, j: nat)
    requires j < |order|
    ensures |SummaryLines(order, counts)| == |order|
    ensures SummaryLines(order, counts)[j] == SummaryLine(order[j], CountOr0(counts, order[j]))
  {
    var init := order[..|order| - 1];
    if j < |init| {
      SummaryLinesInOrder(init, counts, j);
    } else if init != [] {
      SummaryLinesInOrder(init, counts, 0);
    }
  }

  /**
   * The fallback sentence is printed exactly when there is no significant entry:
   * otherwise the text starts with the newline of a block or of the summary heading.
   */
  lemma RenderFallbackIffNothingSignificant(logs: seq<LogEntry>, formatTimestamp: int -> string)
    requires Timestamped(logs)
    ensures (Render(FormattedLines(logs, FirstSeen(logs), CountsOf(logs), formatTimestamp)) == Fallback)
              <==> Significant(logs) == []
  {
    var lines := FormattedLines(logs, FirstSeen(logs), CountsOf(logs), formatTimestamp);
    SumOfCountsIsSignificantCount(logs);
    if Significant(logs) == [] {
      assert FirstSeen(logs) == [] by { FirstSeenEmpty(logs); }
      FirstSeenListsKeys(logs);
      assert CountsOf(logs) == map[];
    } else {
      var first := lines[0];
      if |Blocks(logs, formatTimestamp)| > 0 {
        BlocksInOrder(logs, formatTimestamp, 0);
        assert first == Blocks(logs, formatTimestamp)[0..7][0];
      } else {
        assert false;
      }
      assert first[0] == '\n';
      assert Render(lines)[0] == '\n';
      assert Fallback[0] == Colors.Esc;
    }
  }

  lemma {:induction false} FirstSeenEmpty(logs: seq<LogEntry>)
    requires Significant(logs) == []
    ensures FirstSeen(logs) == []
  {
    if logs != [] {
      FirstSeenEmpty(logs[..|logs| - 1]);
    }
  }

  lemma BlocksSnoc(logs: seq<LogEntry>, i: nat, formatTimestamp: int -> string)
    requires i < |logs| && Timestamped(logs[..i + 1])
    ensures Timestamped(logs[..i])
    ensures Blocks(logs[..i + 1], formatTimestamp) ==
              Blocks(logs[..i], formatTimestamp) + if IsSignificant(logs[i]) then BlockLines(logs[i], formatTimestamp) else []
  {
    assert logs[..i + 1][..i] == logs[..i];
  }

  lemma SummaryLinesSnoc(order: seq<Category>, j: nat, counts: map<Category, nat>)
    requires j < |order|
    ensures SummaryLines(order[..j + 1], counts) ==
              SummaryLines(order[..j], counts) + [SummaryLine(order[j], CountOr0(counts, order[j]))]
  {
    assert order[..j + 1][..j] == order[..j];
  }

  class ConsoleLogHandler {
    var logs: seq<LogEntry>
    var errorCategories: map<Category, nat>
    var categoryOrder: seq<Category>  // the insertion order of `errorCategories`

    /** The counters and their order are those that the stored entries determine. */
    ghost predicate Valid()
      reads this
    {
      errorCategories == CountsOf(logs) && categoryOrder == FirstSeen(logs)
    }

    constructor ()
      ensures Valid()
      ensures logs == [] && errorCategories == map[] && categoryOrder == []
    {
      logs := [];
      errorCategories := map[];
      categoryOrder := [];
    }

    /**
     * `add_log`: store the entry; count a significant one under its category,
     * appending the category to the key order when it is new.
     */
    method AddLog(entry: LogEntry)
      requires Valid()
      modifies this
      ensures Valid()
      ensures logs == old(logs) + [entry]
      ensures IsSignificant(entry) ==>
                var c := CategoryOf(entry);
                && errorCategories == old(errorCategories)[c := CountOr0(old(errorCategories), c) + 1]
                && categoryOrder == if c in old(errorCategories) then old(categoryOrder) else old(categoryOrder) + [c]
      ensures !IsSignificant(entry) ==>
                errorCategories == old(errorCategories) && categoryOrder == old(categoryOrder)
      ensures SumCounts(categoryOrder, errorCategories) == |Significant(logs)|
    {
      FirstSeenListsKeys(logs);
      logs := logs + [entry];
      assert logs[..|logs| - 1] == old(logs);
      if entry.level.Some? && IsSignificantLevel(entry.level.value) {
        var category := Categorize(entry.message.GetOr(""));
        if category !in errorCategories {
          categoryOrder := categoryOrder + [category];
        }
        errorCategories := errorCategories[category := CountOr0(errorCategories, category) + 1];
      }
      SumOfCountsIsSignificantCount(logs);
    }

    /**
     * `get_formatted_logs`: one block per significant entry in insertion
     * order, then the summary in key order, joined by newlines; the fallback
     * sentence when there is nothing to show. `None` stands for the TypeError
     * raised when a significant entry has no timestamp.
     */
    method GetFormattedLogs(formatTimestamp: int -> string) returns (text: Option<string>)
      requires Valid()
      ensures text.None? <==> !Timestamped(logs)
      ensures text.Some? ==>
                Timestamped(logs) &&
                text.value == Render(FormattedLines(logs, categoryOrder, errorCategories, formatTimestamp))
    {
      var blocks := FormatBlocks(formatTimestamp);
      if blocks.None? {
        return None;
      }
      var formatted := blocks.value;
      if errorCategories != map[] {
        var summary := FormatSummary();
        formatted := formatted + [SummaryHeader] + summary;
      }
      assert formatted == FormattedLines(logs, categoryOrder, errorCategories, formatTimestamp);
      text := Some(if formatted != [] then Join(formatted, "\n") else Fallback);
    }

    /** The first loop of `get_formatted_logs`: the blocks of the significant entries. */
    method FormatBlocks(formatTimestamp: int -> string) returns (blocks: Option<seq<string>>)
      ensures blocks.None? <==> !Timestamped(logs)
      ensures blocks.Some? ==> Timestamped(logs) && blocks.value == Blocks(logs, formatTimestamp)
    {
      var formatted: seq<string> := [];
      var i := 0;
      while i < |logs|
        invariant 0 <= i <= |logs|
        invariant Timestamped(logs[..i])
        invariant formatted == Blocks(logs[..i], formatTimestamp)
      {
        var log := logs[i];
        var level := log.level.GetOr("INFO");
        if IsSignificantLevel(level) {
          if log.timestamp.None? {
            assert !Timestamped(logs) by {
              assert IsSignificant(logs[i]);
            }
            return None;
          }
          formatted := formatted + BlockLines(log, formatTimestamp);
        }
        BlocksSnoc(logs, i, formatTimestamp);
        i := i + 1;
      }
      assert logs[..i] == logs;
      blocks := Some(formatted);
    }

    /** The second loop of `get_formatted_logs`: one line per counter, in key order. */
    method FormatSummary() returns (lines: seq<string>)
      requires Valid()
      ensures lines == SummaryLines(categoryOrder, errorCategories)
    {
      FirstSeenListsKeys(logs);
      lines := [];
      var j := 0;
      while j < |categoryOrder|
        invariant 0 <= j <= |categoryOrder|
        invariant lines == SummaryLines(categoryOrder[..j], errorCategories)
      {
        assert categoryOrder[j] in categoryOrder;
        var category := categoryOrder[j];
        lines := lines + [SummaryLine(category, errorCategories[category])];
        SummaryLinesSnoc(categoryOrder, j, errorCategories);
        j := j + 1;
      }
      assert categoryOrder[..j] == categoryOrder;
    }
  }

  /** A SEVERE TypeError message is counted once, under JavaScript. */
  method CategorizationScenario() returns (counts: map<Category, nat>, order: seq<Category>)
    ensures counts == map[JavaScript := 1] && order == [JavaScript]
  {
    var handler := new ConsoleLogHandler();
    var entry := LogEntry(Some("SEVERE"), Some("Cannot read properties of undefined"), Some("javascript"), Some(1234567890));
    UndefinedPropertyIsJavaScript();
    handler.AddLog(entry);
    counts, order := handler.errorCategories, handler.categoryOrder;
  }
}
