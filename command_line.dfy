/**
 * Command-line option lookup: `argv` is the argument vector, program name
 * first, so `argc` is `|argv|`. An option is a literal string such as "-n";
 * its value is the argument that follows it.
 */
module CommandLine {
  /** The first index at or after `from` holding `option`, or -1 when there is none. */
  function FirstIndex(argv: seq<string>, option: string, from: nat): (i: int)
    decreases |argv| - from
    ensures i == -1 || from <= i < |argv|
    ensures i != -1 ==> argv[i] == option && forall k :: from <= k < i ==> argv[k] != option
    ensures i == -1 <==> forall k :: from <= k < |argv| ==> argv[k] != option
  {
    if from >= |argv| then -1
    else if argv[from] == option then from
    else FirstIndex(argv, option, from + 1)
  }

  /** Where `option` first occurs among the arguments, the program name excluded; -1 if nowhere. */
  function OptionIndex(argv: seq<string>, option: string): int {
    FirstIndex(argv, option, 1)
  }

  /**
   * Scans the arguments after the program name for `option` and returns the
   * index of the first match, or -1.
   */
  method FindOption(argv: seq<string>, option: string) returns (i: int)
    ensures i == OptionIndex(argv, option)
    ensures i == -1 || 1 <= i < |argv|
    ensures i != -1 ==> argv[i] == option && forall k :: 1 <= k < i ==> argv[k] != option
    ensures i == -1 <==> forall k :: 1 <= k < |argv| ==> argv[k] != option
  {
    var j := 1;
    while j < |argv|
      invariant 1 <= j
      invariant forall k :: 1 <= k < j && k < |argv| ==> argv[k] != option
      invariant FirstIndex(argv, option, j) == OptionIndex(argv, option)
    {
      if argv[j] == option {
        return j;
      }
      j := j + 1;
    }
    return -1;
  }

  /**
   * The argument after the first `option`, or `default` when the option is
   * absent or is the last argument (it then has no value).
   */
  method ReadString(argv: seq<string>, option: string, default: string) returns (r: string)
    ensures (forall k :: 1 <= k < |argv| ==> argv[k] != option) ==> r == default
    ensures forall i :: 1 <= i < |argv| - 1 && argv[i] == option && (forall k :: 1 <= k < i ==> argv[k] != option)
              ==> r == argv[i + 1]
    ensures (2 <= |argv| && argv[|argv| - 1] == option && forall k :: 1 <= k < |argv| - 1 ==> argv[k] != option)
              ==> r == default
  {
    var iplace := FindOption(argv, option);
    if iplace >= 0 && iplace < |argv| - 1 {
      return argv[iplace + 1];
    }
    return default;
  }

  /**
   * Like `ReadString`, but the value is converted by `atoi`, the C library's
   * string-to-integer conversion, which is passed in.
   */
  method ReadInt(argv: seq<string>, option: string, default: int, atoi: string -> int) returns (r: int)
    ensures (forall k :: 1 <= k < |argv| ==> argv[k] != option) ==> r == default
    ensures forall i :: 1 <= i < |argv| - 1 && argv[i] == option && (forall k :: 1 <= k < i ==> argv[k] != option)
              ==> r == atoi(argv[i + 1])
    ensures (2 <= |argv| && argv[|argv| - 1] == option && forall k :: 1 <= k < |argv| - 1 ==> argv[k] != option)
              ==> r == default
  {
    var iplace := FindOption(argv, option);
    if iplace >= 0 && iplace < |argv| - 1 {
      return atoi(argv[iplace + 1]);
    }
    return default;
  }

  /** An option appended with its value to arguments that lack it is found where it was put. */
  lemma {:induction false} AppendedOptionIsFound(argv: seq<string>, option: string, value: string)
    requires 1 <= |argv|
    requires forall k :: 1 <= k < |argv| ==> argv[k] != option
    ensures OptionIndex(argv + [option, value], option) == |argv|
  {
    var extended := argv + [option, value];
    assert forall k :: 1 <= k < |argv| ==> extended[k] != option;
    assert extended[|argv|] == option;
  }

  /** Arguments appended after an option that is already present do not move it. */
  lemma {:induction false} FirstOccurrenceWins(argv: seq<string>, rest: seq<string>, option: string)
    requires OptionIndex(argv, option) != -1
    ensures OptionIndex(argv + rest, option) == OptionIndex(argv, option)
  {
    var i := OptionIndex(argv, option);
    var extended := argv + rest;
    assert extended[i] == option;
    assert forall k :: 1 <= k < i ==> extended[k] != option;
  }
}
