/** `table_log` of mpc/util.py: prints a table row per call and, on the first call with a
    given tag, the header row of column names before it. The module-level list of tags seen so
    far and the printed lines are the fields of a logger object. */
module TableLog {
  import opened Failures

  /** One entry of the row: a tuple of zero, one, two, three or more items. The first item
      names the column; the second is the value; the third, when present, is a format
      string. */
  datatype Entry<V> =
    | Empty
    | NameOnly(name: string)
    | Pair(name: string, value: V)
    | Triple(name: string, value: V, fmt: string)
    | Longer(name: string)

  /** `' | '.join(cells)`. */
  function Join(cells: seq<string>): string {
    if |cells| == 0 then ""
    else if |cells| == 1 then cells[0]
    else cells[0] + " | " + Join(cells[1..])
  }

  /** `print_row`: the line printed for a row of cells. */
  function RenderRow(cells: seq<string>): (line: string)
    ensures |line| >= 4 && line[..2] == "| " && line[|line| - 2..] == " |"
  {
    "| " + Join(cells) + " |"
  }

  /** `map(itemgetter(0), d)`: the column names; an empty tuple has no first item. */
  function Names<V>(d: seq<Entry<V>>): (r: Result<seq<string>>)
    ensures r.Ok? <==> forall i :: 0 <= i < |d| ==> !d[i].Empty?
    ensures r.Ok? ==> |r.value| == |d| && forall i :: 0 <= i < |d| ==> r.value[i] == d[i].name
    ensures r.Fail? ==> r.error == ListIndex
  {
    if |d| == 0 then Ok([])
    else if d[0].Empty? then Fail(ListIndex)
    else
      match Names(d[1..])
      case Fail(e) => Fail(e)
      case Ok(rest) => Ok([d[0].name] + rest)
  }

  /** The data cells: `fmt.format(e)` for a triple, `str(e)` for a pair; any other arity fails
      the assertion. Formatting and `str` are given as parameters. */
  function Cells<V>(d: seq<Entry<V>>, show: V -> string, format: (string, V) -> string): (r: Result<seq<string>>)
    ensures r.Ok? <==> forall i :: 0 <= i < |d| ==> d[i].Pair? || d[i].Triple?
    ensures r.Ok? ==> |r.value| == |d|
    ensures r.Ok? ==> forall i :: 0 <= i < |d| ==>
      r.value[i] == if d[i].Triple? then format(d[i].fmt, d[i].value) else show(d[i].value)
    ensures r.Fail? ==> r.error == EntryArity
  {
    if |d| == 0 then Ok([])
    else if !(d[0].Pair? || d[0].Triple?) then Fail(EntryArity)
    else
      var cell := if d[0].Triple? then format(d[0].fmt, d[0].value) else show(d[0].value);
      match Cells(d[1..], show, format)
      case Fail(e) => Fail(e)
      case Ok(rest) => Ok([cell] + rest)
  }

  predicate NoDuplicates(tags: seq<string>) {
    forall i, j :: 0 <= i < j < |tags| ==> tags[i] != tags[j]
  }

  class Logger {
    /** `_seen_tables`: the tags whose header has been printed. */
    var seen: seq<string>
    /** The lines printed so far. */
    var lines: seq<string>

    /** Each tag is recorded once. */
    predicate Valid()
      reads this
    {
      NoDuplicates(seen)
    }

    constructor ()
      ensures Valid() && seen == [] && lines == []
    {
      seen := [];
      lines := [];
    }

    /** `table_log(tag, d)`. On the first call with the tag the header is printed and the tag
        recorded; then the data row is printed. A failure while building the header leaves
        everything as it was; an entry of the wrong arity stops the call after the header. */
    method Log<V>(tag: string, d: seq<Entry<V>>, show: V -> string, format: (string, V) -> string)
      returns (r: Result<()>)
      requires Valid()
      modifies this
      ensures Valid()
      ensures tag in seen
        || (tag !in old(seen) && Names(d).Fail? && r == Fail(ListIndex))
      ensures var header := if tag in old(seen) || Names(d).Fail? then [] else [RenderRow(Names(d).value)];
        && seen == (if tag in old(seen) || Names(d).Fail? then old(seen) else old(seen) + [tag])
        && (tag !in old(seen) && Names(d).Fail? ==> r == Fail(ListIndex) && lines == old(lines))
        && (tag in old(seen) || Names(d).Ok? ==>
              match Cells(d, show, format)
              case Ok(cells) => r == Ok(()) && lines == old(lines) + header + [RenderRow(cells)]
              case Fail(e) => r == Fail(e) && lines == old(lines) + header)
    {
      if tag !in seen {
        var names := Names(d);
        if names.Fail? {
          return Fail(names.error);
        }
        lines := lines + [RenderRow(names.value)];
        seen := seen + [tag];
      }
      var cells := Cells(d, show, format);
      if cells.Fail? {
        return Fail(cells.error);
      }
      lines := lines + [RenderRow(cells.value)];
      r := Ok(());
    }
  }

  /** Two successful calls with the same tag emit the header once: header, row, row. */
  method LogTwice<V>(logger: Logger, tag: string, d1: seq<Entry<V>>, d2: seq<Entry<V>>,
                     show: V -> string, format: (string, V) -> string)
    requires logger.Valid() && tag !in logger.seen
    requires Cells(d1, show, format).Ok? && Cells(d2, show, format).Ok?
    modifies logger
    ensures logger.Valid()
    ensures logger.lines == old(logger.lines) +
      [RenderRow(Names(d1).value), RenderRow(Cells(d1, show, format).value), RenderRow(Cells(d2, show, format).value)]
  {
    var r1 := logger.Log(tag, d1, show, format);
    var r2 := logger.Log(tag, d2, show, format);
  }
}
