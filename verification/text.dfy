/** String helpers the payload and message formats are stated with: line
    splitting, the "display <address>" mailbox shape and fixed prefixes. Each
    formatter here comes with the parser that undoes it. */
module Text {
  import opened Wrappers

  /** Position of the last occurrence of `c` in `s`. */
  function LastIndexOf(s: string, c: char): (i: nat)
    requires c in s
    ensures i < |s| && s[i] == c
    ensures c !in s[i + 1..]
  {
    var n := |s| - 1;
    if s[n] == c then n
    else
      assert s == s[..n] + [s[n]];
      var j := LastIndexOf(s[..n], c);
      assert s[j + 1..] == s[..n][j + 1..] + [s[n]];
      j
  }

  /** `s` cut at every line feed, the way a reader of a plain-text body sees its lines. */
  function Lines(s: string): (ls: seq<string>)
    ensures |ls| >= 1
  {
    if |s| == 0 then [""]
    else
      var rest := Lines(s[1..]);
      if s[0] == '\n' then [""] + rest
      else [[s[0]] + rest[0]] + rest[1..]
  }

  /** No line holds a line feed. */
  lemma {:induction false} LinesAreSingleLine(s: string)
    ensures forall k :: 0 <= k < |Lines(s)| ==> '\n' !in Lines(s)[k]
  {
    if |s| > 0 {
      LinesAreSingleLine(s[1..]);
      var rest := Lines(s[1..]);
      if s[0] != '\n' {
        assert '\n' !in [s[0]] + rest[0];
      }
    }
  }

  /** Lines glued back together with line feeds. */
  function JoinLines(ls: seq<string>): string
    requires |ls| >= 1
  {
    if |ls| == 1 then ls[0] else ls[0] + "\n" + JoinLines(ls[1..])
  }

  /** Three joined lines, written out. */
  lemma JoinThree(a: string, b: string, c: string)
    ensures JoinLines([a, b, c]) == a + "\n" + b + "\n" + c
  {
    assert [a, b, c][1..] == [b, c];
    assert [b, c][1..] == [c];
    assert JoinLines([b, c]) == b + "\n" + c;
    assert JoinLines([a, b, c]) == a + "\n" + (b + "\n" + c);
    assert a + "\n" + (b + "\n" + c) == a + "\n" + b + "\n" + c;
  }

  /** The first line of `a + "\n" + b` is `a` when `a` has no line feed. */
  lemma {:induction false} LinesCons(a: string, b: string)
    requires '\n' !in a
    ensures Lines(a + "\n" + b) == [a] + Lines(b)
    decreases |a|
  {
    var s := a + "\n" + b;
    if |a| == 0 {
      assert s[1..] == b;
    } else {
      LinesCons(a[1..], b);
      assert s[0] == a[0];
      assert s[1..] == a[1..] + "\n" + b;
      assert [a[0]] + a[1..] == a;
    }
  }

  /** A line feed inside the middle one of three lines makes four lines. */
  lemma LinesSplitMiddle(a: string, b1: string, b2: string, c: string)
    requires '\n' !in a && '\n' !in b1 && '\n' !in b2 && '\n' !in c
    ensures Lines(JoinLines([a, b1 + "\n" + b2, c])) == [a, b1, b2, c]
  {
    JoinSplitMiddle(a, b1, b2, c);
    var ls := [a, b1, b2, c];
    assert forall k :: 0 <= k < |ls| ==> '\n' !in ls[k];
    LinesOfJoin(ls);
  }

  /** Joining three lines whose middle one holds a line feed is joining four lines. */
  lemma JoinSplitMiddle(a: string, b1: string, b2: string, c: string)
    ensures JoinLines([a, b1 + "\n" + b2, c]) == JoinLines([a, b1, b2, c])
  {
    assert [a, b1 + "\n" + b2, c][1..] == [b1 + "\n" + b2, c];
    assert [b1 + "\n" + b2, c][1..] == [c];
    assert [a, b1, b2, c][1..] == [b1, b2, c];
    assert [b1, b2, c][1..] == [b2, c];
    assert [b2, c][1..] == [c];
    assert JoinLines([b1 + "\n" + b2, c]) == (b1 + "\n" + b2) + "\n" + c;
    assert JoinLines([b1, b2, c]) == b1 + "\n" + (b2 + "\n" + c);
    assert (b1 + "\n" + b2) + "\n" + c == b1 + "\n" + (b2 + "\n" + c);
  }

  /** Splitting joined lines gives the lines back. */
  lemma {:induction false} LinesOfJoin(ls: seq<string>)
    requires |ls| >= 1
    requires forall k :: 0 <= k < |ls| ==> '\n' !in ls[k]
    ensures Lines(JoinLines(ls)) == ls
  {
    if |ls| > 1 {
      var rest := ls[1..];
      forall k | 0 <= k < |rest|
        ensures '\n' !in rest[k]
      {
        assert rest[k] == ls[k + 1];
      }
      LinesOfJoin(rest);
      LinesOfJoinStep(ls[0], rest);
      assert ls == [ls[0]] + rest;
    } else {
      LinesOfSingleLine(ls[0]);
    }
  }

  /** Text without a line feed is one line. */
  lemma {:induction false} LinesOfSingleLine(a: string)
    requires '\n' !in a
    ensures Lines(a) == [a]
  {
    if |a| > 0 {
      LinesOfSingleLine(a[1..]);
      assert [a[0]] + a[1..] == a;
    }
  }

  /** One step of LinesOfJoin: the first line comes off unchanged. */
  lemma LinesOfJoinStep(x: string, rest: seq<string>)
    requires '\n' !in x && |rest| >= 1
    ensures Lines(JoinLines([x] + rest)) == [x] + Lines(JoinLines(rest))
  {
    assert ([x] + rest)[1..] == rest;
    LinesCons(x, JoinLines(rest));
  }

  /** Joining the lines of a text gives the text back. */
  lemma {:induction false} JoinOfLines(s: string)
    ensures JoinLines(Lines(s)) == s
  {
    if |s| > 0 {
      var rest := Lines(s[1..]);
      JoinOfLines(s[1..]);
      if s[0] == '\n' {
        assert ([""] + rest)[1..] == rest;
        assert s == "\n" + s[1..];
      } else {
        JoinConsChar(s[0], rest);
        assert s == [s[0]] + s[1..];
      }
    }
  }

  /** A character put in front of the first line is put in front of the joined text. */
  lemma JoinConsChar(c: char, ls: seq<string>)
    requires |ls| >= 1
    ensures JoinLines([[c] + ls[0]] + ls[1..]) == [c] + JoinLines(ls)
  {
    var x, rest := ls[0], ls[1..];
    if |ls| == 1 {
      assert [[c] + x] + rest == [[c] + x];
    } else {
      assert ls == [x] + rest;
      JoinConsCharStep(c, x, rest);
    }
  }

  /** JoinConsChar when more lines follow the first. */
  lemma JoinConsCharStep(c: char, x: string, rest: seq<string>)
    requires |rest| >= 1
    ensures JoinLines([[c] + x] + rest) == [c] + JoinLines([x] + rest)
  {
    assert ([[c] + x] + rest)[1..] == rest;
    assert ([x] + rest)[1..] == rest;
    Regroup([c], x, "\n", JoinLines(rest));
  }

  /** Concatenation regroups. */
  lemma Regroup(a: string, b: string, c: string, d: string)
    ensures ((a + b) + c) + d == a + ((b + c) + d)
  {
  }

  /** The rest of `s` after `prefix`, when `s` starts with it. */
  function StripPrefix(s: string, prefix: string): (r: Option<string>)
    ensures r.Some? <==> |prefix| <= |s| && s[..|prefix|] == prefix
    ensures r.Some? ==> s == prefix + r.value
  {
    if |prefix| <= |s| && s[..|prefix|] == prefix then Some(s[|prefix|..]) else None
  }

  /** Stripping a prefix that was just prepended gives the suffix back. */
  lemma StripPrefixOfConcat(prefix: string, rest: string)
    ensures StripPrefix(prefix + rest, prefix) == Some(rest)
  {
    assert (prefix + rest)[..|prefix|] == prefix;
    assert (prefix + rest)[|prefix|..] == rest;
  }

  /** A mailbox header in the "display <address>" shape. */
  function Mailbox(display: string, address: string): string
  {
    display + " <" + address + ">"
  }

  /** Splits a mailbox header at its last '<' into display part and address. */
  function SplitMailbox(h: string): (r: Option<(string, string)>)
    ensures r.Some? ==> h == Mailbox(r.value.0, r.value.1) && '<' !in r.value.1
  {
    if |h| >= 1 && h[|h| - 1] == '>' && '<' in h[..|h| - 1] then
      var body := h[..|h| - 1];
      var i := LastIndexOf(body, '<');
      if i >= 1 && body[i - 1] == ' ' then
        assert h == body[..i - 1] + " <" + body[i + 1..] + ">";
        Some((body[..i - 1], body[i + 1..]))
      else None
    else None
  }

  /** A mailbox whose address has no '<' splits back into the parts it was built from. */
  lemma SplitMailboxOfMailbox(display: string, address: string)
    requires '<' !in address
    ensures SplitMailbox(Mailbox(display, address)) == Some((display, address))
  {
    var h := Mailbox(display, address);
    var body := h[..|h| - 1];
    assert body == display + " <" + address;
    var p := |display| + 1;
    assert body[p] == '<';
    var i := LastIndexOf(body, '<');
    assert i == p;
    assert body[..i - 1] == display;
    assert body[i + 1..] == address;
  }
}
