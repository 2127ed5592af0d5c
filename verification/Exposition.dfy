/** Reading the Prometheus text format: one line into metric, labels and value, and back. */
module Exposition {
  import opened Wrappers
  import opened Text

  datatype MetricLine = MetricLine(metric: string, labels: string, value: string)

  datatype Reading = Reading(metric: string, labels: map<string, string>, value: string)

  /** One labelled sample as an exporter prints it; the value is already rendered. */
  datatype Sample = Sample(metric: string, labels: seq<(string, string)>, value: string)

  /** Cuts a line at its first `{` and its last `}`. An absent brace makes the line unreadable. */
  function SplitMetricLine(line: string): Option<MetricLine> {
    var start, afterEnd := Find(line, '{'), AfterLast(line, '}');
    if start == 0 || start == |line| || afterEnd <= start + 1 then None
    else Assemble(line[..start], line[start + 1..afterEnd - 1], line[afterEnd..])
  }

  function Assemble(metric: string, labels: string, tail: string): Option<MetricLine> {
    var rest := TrimSpace(tail);
    var words := Fields(rest);
    if rest == "" || words == [] then None else Some(MetricLine(TrimSpace(metric), labels, words[0]))
  }

  function AddLabel(out: map<string, string>, item: string): map<string, string> {
    var t := TrimSpace(item);
    var eq := Find(t, '=');
    if t == "" || eq == |t| then out
    else out[TrimSpace(t[..eq]) := Trim(t[eq + 1..], IsQuote)]
  }

  function LabelsOf(items: seq<string>): map<string, string> {
    if items == [] then map[] else AddLabel(LabelsOf(items[..|items| - 1]), items[|items| - 1])
  }

  method ParseLabels(raw: string) returns (out: map<string, string>)
    ensures out == LabelsOf(Split(raw, ','))
  {
    hide Find, Trim, TrimSpace, Split;
    out := map[];
    var items := Split(raw, ',');
    for n := 0 to |items|
      invariant out == LabelsOf(items[..n])
    {
      var item := TrimSpace(items[n]);
      assert items[..n + 1][..n] == items[..n];
      assert LabelsOf(items[..n + 1]) == AddLabel(out, items[n]);
      if item == "" {
        continue;
      }
      var eq := Find(item, '=');
      if eq == |item| {
        continue;
      }
      out := out[TrimSpace(item[..eq]) := Trim(item[eq + 1..], IsQuote)];
    }
    assert items[..|items|] == items;
  }

  /** What the scanning loop makes of one raw line, before it looks at the metric name. */
  function ReadLine(raw: string): Option<Reading> {
    var line := TrimSpace(raw);
    if line == "" || line[0] == '#' then None
    else match SplitMetricLine(line)
      case None => None
      case Some(m) => Some(Reading(m.metric, LabelsOf(Split(m.labels, ',')), m.value))
  }

  function ReadLines(lines: seq<string>): seq<Reading> {
    if lines == [] then []
    else
      var first := ReadLine(lines[0]);
      (if first.Some? then [first.value] else []) + ReadLines(lines[1..])
  }

  /** A label item without an equals sign is skipped; any other is cut at its first one. */
  lemma ItemMeans(out: map<string, string>, item: string, name: string, quoted: string)
    ensures '=' !in TrimSpace(item) ==> AddLabel(out, item) == out
    ensures '=' !in name && TrimSpace(item) == name + "=" + quoted ==>
      AddLabel(out, item) == out[TrimSpace(name) := Trim(quoted, IsQuote)]
  {
    hide TrimSpace, Trim;
    var t := TrimSpace(item);
    if '=' !in name && t == name + "=" + quoted {
      CutAtEquals(name, quoted);
    }
  }

  // ---------- Printing ----------

  function Quote(v: string): string {
    "\"" + v + "\""
  }

  function PrintLabel(pair: (string, string)): string {
    pair.0 + "=" + Quote(pair.1)
  }

  function PrintLabels(labels: seq<(string, string)>): (items: seq<string>)
    ensures |items| == |labels|
  {
    seq(|labels|, i requires 0 <= i < |labels| => PrintLabel(labels[i]))
  }

  function PrintSample(s: Sample): string {
    s.metric + "{" + Join(PrintLabels(s.labels), ',') + "}" + (" " + s.value)
  }

  function PrintSamples(samples: seq<Sample>): (lines: seq<string>)
    ensures |lines| == |samples|
  {
    seq(|samples|, i requires 0 <= i < |samples| => PrintSample(samples[i]))
  }

  /** The labels as a dictionary, a later pair winning over an earlier one of the same name. */
  function LabelMap(labels: seq<(string, string)>): map<string, string> {
    if labels == [] then map[]
    else LabelMap(labels[..|labels| - 1])[labels[|labels| - 1].0 := labels[|labels| - 1].1]
  }

  predicate PrintableLabel(pair: (string, string)) {
    && Bare(pair.0, IsSpace) && '=' !in pair.0 && ',' !in pair.0 && '\n' !in pair.0
    && Bare(pair.1, IsQuote) && ',' !in pair.1 && '\n' !in pair.1
  }

  predicate PrintableMetric(metric: string) {
    metric != "" && Bare(metric, IsSpace) && '{' !in metric && '\n' !in metric && metric[0] != '#'
  }

  predicate PrintableValue(value: string) {
    value != "" && '}' !in value && (forall c :: c in value ==> !IsSpace(c))
  }

  predicate Printable(s: Sample) {
    && PrintableMetric(s.metric) && PrintableValue(s.value)
    && (forall i :: 0 <= i < |s.labels| ==> PrintableLabel(s.labels[i]))
  }

  lemma Unquote(v: string)
    requires Bare(v, IsQuote)
    ensures Trim(Quote(v), IsQuote) == v
  {
    TrimEnclosed("\"", v, "\"", IsQuote);
  }

  lemma PrintedLabelBare(pair: (string, string))
    requires Bare(pair.0, IsSpace)
    ensures Bare(PrintLabel(pair), IsSpace)
  {
    var item := PrintLabel(pair);
    assert item[|item| - 1] == '"';
    assert item[0] == if pair.0 == "" then '=' else pair.0[0];
  }

  lemma CutAtEquals(name: string, quoted: string)
    requires '=' !in name
    ensures var item := name + "=" + quoted;
            Find(item, '=') == |name| && item[..|name|] == name && item[|name| + 1..] == quoted
  {
    FindAt(name, '=', quoted);
  }

  lemma AddItem(out: map<string, string>, item: string, k: nat, name: string, quoted: string)
    requires Bare(item, IsSpace) && Find(item, '=') == k < |item| && item[..k] == name && item[k + 1..] == quoted
    requires Bare(name, IsSpace)
    ensures AddLabel(out, item) == out[name := Trim(quoted, IsQuote)]
  {
    hide Find, TrimSpace, Trim, Bare;
    assert TrimSpace(item) == item && TrimSpace(name) == name;
  }

  lemma LabelRoundTrip(out: map<string, string>, pair: (string, string))
    requires PrintableLabel(pair)
    ensures AddLabel(out, PrintLabel(pair)) == out[pair.0 := pair.1]
  {
    hide Find, Trim, TrimSpace, Bare, Quote, AddLabel;
    assert Bare(pair.0, IsSpace);
    Unquote(pair.1);
    PrintedLabelBare(pair);
    CutAtEquals(pair.0, Quote(pair.1));
    AddItem(out, PrintLabel(pair), |pair.0|, pair.0, Quote(pair.1));
  }

  lemma {:induction false} LabelsRoundTrip(labels: seq<(string, string)>)
    requires forall i :: 0 <= i < |labels| ==> PrintableLabel(labels[i])
    ensures LabelsOf(PrintLabels(labels)) == LabelMap(labels)
  {
    if labels != [] {
      var n := |labels| - 1;
      LabelsRoundTrip(labels[..n]);
      assert PrintLabels(labels)[..n] == PrintLabels(labels[..n]);
      LabelRoundTrip(LabelMap(labels[..n]), labels[n]);
    }
  }

  lemma PrintedLabelFree(pair: (string, string), c: char)
    requires c !in pair.0 && c !in pair.1 && c != '=' && c != '"'
    ensures c !in PrintLabel(pair)
  {
  }

  lemma LabelTextRoundTrip(labels: seq<(string, string)>)
    requires forall i :: 0 <= i < |labels| ==> PrintableLabel(labels[i])
    ensures LabelsOf(Split(Join(PrintLabels(labels), ','), ',')) == LabelMap(labels)
  {
    var items := PrintLabels(labels);
    if labels == [] {
      assert Split("", ',') == [""] && [""][..0] == [];
      assert LabelsOf([""]) == AddLabel(LabelsOf([]), "");
    } else {
      forall i | 0 <= i < |items| ensures ',' !in items[i] {
        PrintedLabelFree(labels[i], ',');
      }
      SplitJoin(items, ',');
      LabelsRoundTrip(labels);
    }
  }

  /** `line` is `metric{body}tail`, cut at the two braces. */
  predicate Braced(line: string, metric: string, body: string, tail: string) {
    && |line| == |metric| + |body| + |tail| + 2
    && line[..|metric|] == metric
    && line[|metric| + 1..][..|body|] == body
    && line[|metric| + 1..][|body| + 1..] == tail
    && Find(line, '{') == |metric| && AfterLast(line, '}') == |metric| + |body| + 2
  }

  lemma BracesFound(metric: string, body: string, tail: string)
    requires '{' !in metric && '}' !in tail
    ensures var line := metric + "{" + body + "}" + tail;
            Find(line, '{') == |metric| && AfterLast(line, '}') == |metric| + |body| + 2
  {
    hide *;
    var line := metric + "{" + body + "}" + tail;
    FindAt(metric, '{', body + "}" + tail);
    assert line == metric + ['{'] + (body + "}" + tail);
    AfterLastAt(metric + "{" + body, '}', tail);
  }

  lemma BracedLine(metric: string, body: string, tail: string)
    requires '{' !in metric && '}' !in tail
    ensures Braced(metric + "{" + body + "}" + tail, metric, body, tail)
  {
    hide Find, AfterLast;
    BracesFound(metric, body, tail);
    var open, close: string := "{", "}";
    Regroup(metric, open, body, close, tail);
    var rest := body + (close + tail);
    Pieces(metric, open + rest);
    Pieces(metric + open, rest);
    Pieces(body, close + tail);
    Pieces(body + close, tail);
  }

  lemma Regroup(a: string, b: string, c: string, d: string, e: string)
    ensures var line, rest := a + b + c + d + e, c + (d + e);
            line == a + (b + rest) && line == (a + b) + rest && rest == (c + d) + e
  {
  }

  lemma Pieces(a: string, b: string)
    ensures (a + b)[..|a|] == a && (a + b)[|a|..] == b
  {
  }

  lemma ValueAlone(v: string)
    requires v != "" && forall c :: c in v ==> !IsSpace(c)
    ensures TrimSpace(" " + v) == v && Fields(v) == [v]
  {
    ValueBare(v);
    assert " " + v == " " + v + "";
    TrimEnclosed(" ", v, "", IsSpace);
    FieldsWord(v);
  }

  lemma CutLine(line: string, metric: string, body: string, tail: string)
    requires Braced(line, metric, body, tail) && metric != ""
    ensures SplitMetricLine(line) == Assemble(metric, body, tail)
  {
    hide Find, AfterLast, Assemble;
    assert line[|metric| + 1..|metric| + |body| + 1] == line[|metric| + 1..][..|body|];
    assert line[|metric| + |body| + 2..] == line[|metric| + 1..][|body| + 1..];
  }

  lemma AssembleParts(metric: string, labels: string, tail: string, value: string)
    requires Bare(metric, IsSpace) && value != "" && TrimSpace(tail) == value && Fields(value) == [value]
    ensures Assemble(metric, labels, tail) == Some(MetricLine(metric, labels, value))
  {
    assert TrimSpace(metric) == metric;
    hide Fields, TrimSpace, Bare;
  }

  lemma SampleSplits(s: Sample)
    requires Printable(s)
    ensures SplitMetricLine(PrintSample(s)) == Some(MetricLine(s.metric, Join(PrintLabels(s.labels), ','), s.value))
  {
    hide Braced, Find, AfterLast, TrimSpace, Fields, Bare, Join, PrintLabels, Assemble, SplitMetricLine;
    var body, tail := Join(PrintLabels(s.labels), ','), " " + s.value;
    ValueAlone(s.value);
    BracedLine(s.metric, body, tail);
    CutLine(PrintSample(s), s.metric, body, tail);
    AssembleParts(s.metric, body, tail, s.value);
  }

  /** The line is `a{b}c`, cut at its first opening brace and its last closing one. */
  predicate CutsInto(line: string, a: string, b: string, c: string) {
    line == a + "{" + b + "}" + c && '{' !in a && '}' !in c
  }

  /** Which lines are readings, and of what: those that are no comment and have something before their first opening
      brace and something after their last closing one. */
  lemma LineMeans(raw: string, r: Reading)
    ensures ReadLine(raw) == Some(r) <==>
      exists a, b, c ::
        && CutsInto(TrimSpace(raw), a, b, c) && a != "" && a[0] != '#' && Fields(c) != []
        && r == Reading(TrimSpace(a), LabelsOf(Split(b, ',')), Fields(c)[0])
  {
    hide TrimSpace, Fields, LabelsOf, Split, CutsInto, SplitMetricLine, ReadLine;
    var line := TrimSpace(raw);
    if a, b, c :|
      && CutsInto(line, a, b, c) && a != "" && a[0] != '#' && Fields(c) != []
      && r == Reading(TrimSpace(a), LabelsOf(Split(b, ',')), Fields(c)[0])
    {
      CutLineReads(raw, a, b, c);
    }
    if ReadLine(raw) == Some(r) {
      SplitByReadLine(raw);
      var a, b, c := LineCut(line);
      CutLineReads(raw, a, b, c);
    }
  }

  lemma SplitByReadLine(raw: string)
    ensures ReadLine(raw).Some? ==> SplitMetricLine(TrimSpace(raw)).Some?
  {
    hide TrimSpace, LabelsOf, Split, SplitMetricLine;
  }

  lemma CutLineReads(raw: string, a: string, b: string, c: string)
    requires CutsInto(TrimSpace(raw), a, b, c) && a != ""
    ensures ReadLine(raw) == if a[0] == '#' || Fields(c) == [] then None
                             else Some(Reading(TrimSpace(a), LabelsOf(Split(b, ',')), Fields(c)[0]))
  {
    hide TrimSpace, Fields, LabelsOf, Split, SplitMetricLine, Braced, Assemble;
    var line := TrimSpace(raw);
    assert line[0] == a[0];
    BracedLine(a, b, c);
    CutLine(line, a, b, c);
    AssembleMeans(a, b, c);
  }

  lemma AssembleMeans(a: string, b: string, c: string)
    ensures Assemble(a, b, c) == if Fields(c) == [] then None else Some(MetricLine(TrimSpace(a), b, Fields(c)[0]))
  {
    hide TrimSpace, Fields;
    FieldsTrimmed(c);
    NoWords();
  }

  lemma NoWords()
    ensures Fields("") == []
  {
  }

  lemma LineCut(line: string) returns (a: string, b: string, c: string)
    requires SplitMetricLine(line).Some?
    ensures CutsInto(line, a, b, c) && a != ""
  {
    hide Assemble, CutsInto;
    var start, end := Find(line, '{'), AfterLast(line, '}');
    CutAt(line, start, end - 1);
    a, b, c := line[..start], line[start + 1..end - 1], line[end..];
  }

  lemma CutAt(line: string, i: nat, j: nat)
    requires i < j < |line| && line[i] == '{' && line[j] == '}' && '{' !in line[..i] && '}' !in line[j + 1..]
    ensures CutsInto(line, line[..i], line[i + 1..j], line[j + 1..])
  {
    var a, b, c := line[..i], line[i + 1..j], line[j + 1..];
    var open, close := [line[i]], [line[j]];
    assert line == a + open + b + close + c;
    assert open == "{" && close == "}";
  }

  lemma ValueBare(v: string)
    requires v != "" && forall c :: c in v ==> !IsSpace(c)
    ensures Bare(v, IsSpace)
  {
    assert v[0] in v && v[|v| - 1] in v;
  }

  /** A printed sample reads back as its metric, its label dictionary and its value. */
  lemma SampleRoundTrip(s: Sample)
    requires Printable(s)
    ensures ReadLine(PrintSample(s)) == Some(Reading(s.metric, LabelMap(s.labels), s.value))
  {
    var line := PrintSample(s);
    assert line[0] == s.metric[0] && line[|line| - 1] == s.value[|s.value| - 1];
    ValueBare(s.value);
    assert TrimSpace(line) == line;
    SampleSplits(s);
    LabelTextRoundTrip(s.labels);
  }

  lemma PrintedOnOneLine(s: Sample)
    requires Printable(s)
    ensures '\n' !in PrintSample(s)
  {
    var items := PrintLabels(s.labels);
    forall i | 0 <= i < |items| ensures '\n' !in items[i] {
      PrintedLabelFree(s.labels[i], '\n');
    }
    JoinFree(items, ',', '\n');
    assert IsSpace('\n');
  }

  function Readings(samples: seq<Sample>): seq<Reading> {
    seq(|samples|, i requires 0 <= i < |samples| =>
      Reading(samples[i].metric, LabelMap(samples[i].labels), samples[i].value))
  }

  lemma {:induction false} LinesRoundTrip(samples: seq<Sample>)
    requires forall i :: 0 <= i < |samples| ==> Printable(samples[i])
    ensures ReadLines(PrintSamples(samples)) == Readings(samples)
  {
    hide ReadLine, PrintSample;
    if samples != [] {
      SampleRoundTrip(samples[0]);
      LinesRoundTrip(samples[1..]);
      assert PrintSamples(samples)[1..] == PrintSamples(samples[1..]);
      var s := samples[0];
      calc {
        ReadLines(PrintSamples(samples));
        [Reading(s.metric, LabelMap(s.labels), s.value)] + Readings(samples[1..]);
        Readings(samples);
      }
    }
  }

  /** Printing any list of samples and scanning the text recovers the list. */
  lemma ExpositionRoundTrip(samples: seq<Sample>)
    requires forall i :: 0 <= i < |samples| ==> Printable(samples[i])
    ensures ReadLines(Split(Join(PrintSamples(samples), '\n'), '\n')) == Readings(samples)
  {
    var lines := PrintSamples(samples);
    if samples == [] {
      assert ReadLines([""]) == [] + ReadLines([]);
    } else {
      forall i | 0 <= i < |lines| ensures '\n' !in lines[i] {
        PrintedOnOneLine(samples[i]);
      }
      SplitJoin(lines, '\n');
      LinesRoundTrip(samples);
    }
  }

  /** With distinct names, the dictionary holds every printed label. */
  lemma {:induction false} LabelMapLookup(labels: seq<(string, string)>, i: nat)
    requires i < |labels|
    requires forall j, k :: 0 <= j < k < |labels| ==> labels[j].0 != labels[k].0
    ensures labels[i].0 in LabelMap(labels) && LabelMap(labels)[labels[i].0] == labels[i].1
  {
    if i < |labels| - 1 {
      LabelMapLookup(labels[..|labels| - 1], i);
    }
  }
}
