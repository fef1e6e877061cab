/**
 * Turning non-interactive command-line arguments back into one command line
 * (fixupArgs in cf.go), and a reference definition of the quote-aware split
 * that reads such a line back into arguments.
 */
module Args {
  import opened Wrappers
  import opened Text

  /** The characters fixupArgs looks for: a space or a tab. */
  predicate IsBlank(c: char) {
    c == ' ' || c == '\t'
  }

  predicate HasBlank(a: string) {
    exists i :: 0 <= i < |a| && IsBlank(a[i])
  }

  /** One argument as it is written back into the command line. */
  function Quote(a: string): (q: string)
    ensures |q| == |a| + (if HasBlank(a) then 2 else 0)
  {
    if HasBlank(a) then "\"" + a + "\"" else a
  }

  /** Every argument passed through Quote, in the original order. */
  function Requote(args: seq<string>): (r: seq<string>)
    ensures |r| == |args|
    ensures forall i :: 0 <= i < |args| ==> r[i] == Quote(args[i])
  {
    seq(|args|, i requires 0 <= i < |args| => Quote(args[i]))
  }

  /** The parts separated by single spaces, as strings.Join(parts, " ") does. */
  function JoinSpaced(parts: seq<string>): string
  {
    if parts == [] then ""
    else if |parts| == 1 then parts[0]
    else parts[0] + " " + JoinSpaced(parts[1..])
  }

  /** Rebuilds the command line from the arguments, quoting those that hold a blank. */
  method FixupArgs(args: seq<string>) returns (line: string)
    ensures line == JoinSpaced(Requote(args))
  {
    var newArgs: seq<string> := [];
    for k := 0 to |args|
      invariant newArgs == Requote(args[..k])
    {
      var a := args[k];
      if HasBlank(a) {
        a := "\"" + a + "\"";
      }
      newArgs := newArgs + [a];
    }
    assert args[..|args|] == args;
    line := JoinSpaced(newArgs);
  }

  // ---------------------------------------------------------------------
  // The shape of the rebuilt line.

  /** No arguments give the empty line; one argument is written alone. */
  lemma JoinSpacedSmall(parts: seq<string>)
    ensures parts == [] ==> JoinSpaced(parts) == ""
    ensures |parts| == 1 ==> JoinSpaced(parts) == parts[0]
  {
  }

  /**
   * The length of the rebuilt line: every argument, two quote marks for each
   * argument that holds a blank, and one separating space between neighbours.
   */
  function QuotedLength(args: seq<string>): nat
  {
    if args == [] then 0
    else |args[0]| + (if HasBlank(args[0]) then 2 else 0) + QuotedLength(args[1..])
  }

  lemma {:induction false} RebuiltLength(args: seq<string>)
    ensures |JoinSpaced(Requote(args))| ==
            QuotedLength(args) + (if args == [] then 0 else |args| - 1)
  {
    if |args| > 1 {
      RebuiltLength(args[1..]);
      assert Requote(args)[1..] == Requote(args[1..]);
    }
  }

  // ---------------------------------------------------------------------
  // Reading the line back.

  /** Characters that separate unquoted words in the reference split. */
  predicate IsSpace(c: char) {
    c == ' ' || c == '\t' || c == '\n' || c == '\r'
  }

  /** The index of the first separator in s, or |s| when there is none. */
  function WordEnd(s: string): (k: nat)
    ensures k <= |s|
    ensures forall j :: 0 <= j < k ==> !IsSpace(s[j])
    ensures k < |s| ==> IsSpace(s[k])
  {
    if s == [] || IsSpace(s[0]) then 0 else 1 + WordEnd(s[1..])
  }

  function Prepend(token: string, rest: Option<seq<string>>): Option<seq<string>>
  {
    match rest
    case None => None
    case Some(tokens) => Some([token] + tokens)
  }

  /**
   * Reference quote-aware split of a command line: separators collapse, a
   * double-quoted stretch is one token, an unterminated quote is malformed
   * (None).
   */
  function Tokenize(s: string): Option<seq<string>>
    decreases |s|
  {
    if s == [] then Some([])
    else if IsSpace(s[0]) then Tokenize(s[1..])
    else if s[0] == '"' then
      var k := IndexOf(s[1..], '"');
      if k == |s| - 1 then None
      else Prepend(s[1..k + 1], Tokenize(s[k + 2..]))
    else
      var k := WordEnd(s);
      Prepend(s[..k], Tokenize(s[k..]))
  }

  /**
   * An argument the rebuilt line can carry: not empty, no double quote, and
   * no line break (fixupArgs quotes only for spaces and tabs).
   */
  predicate Carried(a: string) {
    a != [] && forall i :: 0 <= i < |a| ==> a[i] != '"' && a[i] != '\n' && a[i] != '\r'
  }

  /** What follows one rebuilt argument: nothing, or a space and the next ones. */
  predicate StartsApart(t: string) {
    t == [] || t[0] == ' '
  }

  lemma QuotedTokenFirst(a: string, t: string)
    requires Carried(a) && StartsApart(t)
    ensures Tokenize(Quote(a) + t) == Prepend(a, Tokenize(t))
  {
    if HasBlank(a) {
      QuotedWordFirst(a, t);
    } else {
      BareWordFirst(a, t);
    }
  }

  /** An argument written in quotes is read back as one token. */
  lemma QuotedWordFirst(a: string, t: string)
    requires Carried(a) && HasBlank(a)
    ensures Tokenize("\"" + a + "\"" + t) == Prepend(a, Tokenize(t))
  {
    var s := "\"" + a + "\"" + t;
    assert s[1..] == a + ['"'] + t;
    var k := IndexOf(s[1..], '"');
    assert k == |a| by {
      assert (s[1..])[|a|] == '"';
      assert forall j :: 0 <= j < |a| ==> (s[1..])[j] == a[j];
    }
    assert s[1..k + 1] == a;
    assert s[k + 2..] == t;
  }

  /** An argument without blanks is read back as one word. */
  lemma BareWordFirst(a: string, t: string)
    requires Carried(a) && !HasBlank(a) && StartsApart(t)
    ensures Tokenize(a + t) == Prepend(a, Tokenize(t))
  {
    var s := a + t;
    assert s[0] == a[0];
    var k := WordEnd(s);
    assert k == |a| by {
      assert forall j :: 0 <= j < |a| ==> s[j] == a[j] && !IsBlank(a[j]);
      assert |a| < |s| ==> s[|a|] == ' ';
    }
    assert s[..k] == a;
    assert s[k..] == t;
  }

  /** A leading run of separators is skipped. */
  lemma SkipSpace(t: string)
    ensures Tokenize(" " + t) == Tokenize(t)
  {
    assert (" " + t)[1..] == t;
  }

  /**
   * The rebuilt line splits back into exactly the original arguments, for
   * every list of arguments that the line can carry.
   */
  lemma {:induction false} FixupRoundTrip(args: seq<string>)
    requires forall i :: 0 <= i < |args| ==> Carried(args[i])
    ensures Tokenize(JoinSpaced(Requote(args))) == Some(args)
  {
    if args == [] {
    } else if |args| == 1 {
      var q := Requote(args);
      assert JoinSpaced(q) == Quote(args[0]) + [];
      QuotedTokenFirst(args[0], []);
      assert [args[0]] + [] == args;
    } else {
      var q := Requote(args);
      assert q[1..] == Requote(args[1..]);
      var t := JoinSpaced(Requote(args[1..]));
      assert JoinSpaced(q) == Quote(args[0]) + (" " + t);
      QuotedTokenFirst(args[0], " " + t);
      SkipSpace(t);
      FixupRoundTrip(args[1..]);
      assert [args[0]] + args[1..] == args;
    }
  }

  /**
   * An empty argument is not carried: fixupArgs writes it as nothing, so
   * `txt foo ""` is rebuilt as "txt foo " and reads back as two arguments.
   */
  lemma EmptyArgumentDropped(a: string, b: string)
    requires Carried(a) && Carried(b) && !HasBlank(a) && !HasBlank(b)
    ensures JoinSpaced(Requote([a, b, ""])) == a + " " + b + " "
    ensures Tokenize(JoinSpaced(Requote([a, b, ""]))) == Some([a, b])
  {
    assert !HasBlank("");
    assert Requote([a, b, ""]) == [a, b, ""];
    assert [a, b, ""][1..] == [b, ""] && [b, ""][1..] == [""];
    assert JoinSpaced([""]) == "";
    assert JoinSpaced([b, ""]) == b + " " + "";
    assert JoinSpaced([a, b, ""]) == a + " " + (b + " " + "");
    assert a + " " + (b + " " + "") == a + (" " + (b + (" " + "")));
    var t0 := " " + "";
    var t1 := b + t0;
    var t2 := " " + t1;
    SkipSpace("");
    assert Tokenize(t0) == Some([]);
    BareWordFirst(b, t0);
    assert Tokenize(t1) == Prepend(b, Some([]));
    assert [b] + [] == [b];
    SkipSpace(t1);
    BareWordFirst(a, t2);
    assert Tokenize(a + t2) == Some([a] + [b]);
    assert JoinSpaced(Requote([a, b, ""])) == a + t2;
    assert [a] + [b] == [a, b];
  }
}
