/** The command-line helpers of the test client and the RIS record it imports. */
module TestClient {
  import opened Prelude

  /** `getArgValue(flag)` over the process arguments `argv`: the argument
      right after the first occurrence of `flag`, or null (None) when the flag
      is absent or is the last argument. */
  function GetArgValue(argv: seq<string>, flag: string): (r: Option<string>)
    ensures flag !in argv ==> r.None?
    ensures forall i :: 0 <= i < |argv| && argv[i] == flag && flag !in argv[..i] ==>
      r == if i + 1 < |argv| then Some(argv[i + 1]) else None
    ensures r.Some? ==> exists i :: 0 <= i < |argv| - 1 && argv[i] == flag && r.value == argv[i + 1]
  {
    var index := IndexOf(argv, flag);
    if index == -1 || index + 1 >= |argv| then None else Some(argv[index + 1])
  }

  /** `hasFlag(flag)`: whether `flag` is one of the arguments. */
  function HasFlag(argv: seq<string>, flag: string): (r: bool)
    ensures r <==> exists i :: 0 <= i < |argv| && argv[i] == flag
  {
    flag in argv
  }

  /** A flag given as the value of another flag still counts as present. */
  lemma GetArgValueImpliesFlag(argv: seq<string>, flag: string)
    requires GetArgValue(argv, flag).Some?
    ensures HasFlag(argv, flag) && HasFlag(argv, GetArgValue(argv, flag).value)
  {
    var i :| 0 <= i < |argv| - 1 && argv[i] == flag && GetArgValue(argv, flag).value == argv[i + 1];
    assert argv[i + 1] == GetArgValue(argv, flag).value;
  }

  /** The six lines of the RIS journal record, in order. */
  function RisLines(title: string): seq<string>
  {
    ["TY  - JOUR", "TI  - " + title, "AU  - Doe, Jane", "PY  - 2020", "JO  - Example Journal", "ER  -"]
  }

  /** `buildRis(title)`: the lines joined by newlines. Whatever the title, the
      text opens with the type line and the title tag and closes with the end
      tag. */
  function BuildRis(title: string): (r: string)
    ensures "TY  - JOUR\nTI  - " + title <= r
    ensures |r| >= 6 && r[|r| - 6..] == "\nER  -"
  {
    var lines := RisLines(title);
    var tail := Join(lines[2..], "\n");
    assert Join(lines, "\n") == lines[0] + "\n" + (lines[1] + "\n" + tail);
    JoinEndsWithLast(lines[1..], "\n");
    Join(lines, "\n")
  }

  /** A join of several parts ends with the separator and the last part. */
  lemma {:induction false} JoinEndsWithLast(parts: seq<string>, sep: string)
    requires |parts| >= 2
    ensures var j := Join(parts, sep); var tail := sep + parts[|parts| - 1];
      |j| >= |tail| && j[|j| - |tail|..] == tail
    decreases |parts|
  {
    if |parts| > 2 {
      JoinEndsWithLast(parts[1..], sep);
    }
  }

  /** For a one-line title the record reads back as exactly its six lines:
      the type line first, the title second, the end tag last. */
  lemma RisReadsBackAsSixLines(title: string)
    requires '\n' !in title
    ensures Split(BuildRis(title), '\n') == RisLines(title)
    ensures |RisLines(title)| == 6 && RisLines(title)[0] == "TY  - JOUR"
    ensures RisLines(title)[1] == "TI  - " + title && RisLines(title)[5] == "ER  -"
  {
    var lines := RisLines(title);
    assert "TI  - " + title == lines[1];
    assert forall i :: 0 <= i < |lines| && i != 1 ==> '\n' !in lines[i];
    assert '\n' !in lines[1];
    SplitJoin(lines, '\n');
  }
}
