/**
 * Line input from the terminal (readString and readHiddenString in cf.go).
 * Standard input is the string of characters still unread.
 */
module Console {
  import opened Text

  /** The result of one read: the line, or failure, and the input left over. */
  datatype Read = Read(ok: bool, line: string, rest: string)

  /** s without its trailing carriage returns. */
  function TrimReturns(s: string): (r: string)
    ensures |r| <= |s| && r == s[..|r|]
    ensures r == [] || r[|r| - 1] != '\r'
    ensures forall j :: |r| <= j < |s| ==> s[j] == '\r'
  {
    if s == [] || s[|s| - 1] != '\r' then s else TrimReturns(s[..|s| - 1])
  }

  /**
   * Reads up to and including the next newline and drops the trailing
   * "\r\n" characters; at end of input without a newline the read fails,
   * the partial line is lost and the caller sees "".
   */
  function ReadLine(input: string): (r: Read)
    ensures r.ok <==> '\n' in input
    ensures r.ok ==> |r.rest| < |input|
    ensures !r.ok ==> r.line == "" && r.rest == ""
    ensures '\n' !in r.line
    ensures r.line == [] || r.line[|r.line| - 1] != '\r'
  {
    var k := IndexOf(input, '\n');
    if k == |input| then Read(false, "", "")
    else Read(true, TrimReturns(input[..k]), input[k + 1..])
  }

  /**
   * A successful read splits the input exactly: the line, the carriage
   * returns it dropped, the newline, and the rest.
   */
  lemma ReadLineSplits(input: string)
    requires '\n' in input
    ensures var r := ReadLine(input);
      exists crs: string :: (forall j :: 0 <= j < |crs| ==> crs[j] == '\r') &&
        input == r.line + crs + "\n" + r.rest
  {
    var k := IndexOf(input, '\n');
    var pre := input[..k];
    var line := TrimReturns(pre);
    var crs := pre[|line|..];
    assert forall j :: 0 <= j < |crs| ==> crs[j] == pre[|line| + j];
    assert pre == line + crs;
    assert input == pre + "\n" + input[k + 1..];
  }

  /** A line typed ahead of the rest of the input is read back unchanged. */
  lemma ReadLineTyped(line: string, rest: string)
    requires '\n' !in line && (line == [] || line[|line| - 1] != '\r')
    ensures ReadLine(line + "\n" + rest) == Read(true, line, rest)
  {
    var s := line + "\n" + rest;
    assert forall j :: 0 <= j < |line| ==> s[j] == line[j];
    assert s[|line|] == '\n';
    assert s[..|line|] == line;
    assert s[|line| + 1..] == rest;
  }
}
