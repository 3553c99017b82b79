/** The framing of the live response (src/components/ChatWindow.tsx, lines
    357-380): decoded text chunks are appended to a buffer, the buffer is split
    on "\n", every piece but the last is a complete line and the last stays in
    the buffer; a complete line carries an event only when, trimmed, it starts
    with "data:" and what follows is neither empty nor "[DONE]". */
module Framing {
  import opened JsText
  import opened JsValue

  function Last<T>(xs: seq<T>): T
    requires |xs| > 0
  {
    xs[|xs| - 1]
  }

  function AllButLast<T>(xs: seq<T>): seq<T>
    requires |xs| > 0
  {
    xs[..|xs| - 1]
  }

  /** `s.split("\n")`: never empty. */
  function Split(s: string): (r: seq<string>)
    ensures |r| >= 1
  {
    if s == [] then [""]
    else if s[0] == '\n' then [""] + Split(s[1..])
    else
      var t := Split(s[1..]);
      [[s[0]] + t[0]] + t[1..]
  }

  /** `parts.join("\n")` */
  function JoinLines(parts: seq<string>): string {
    Join(parts, "\n")
  }

  /** No piece of a split holds a "\n". */
  lemma {:induction false} SplitPieces(s: string)
    ensures forall i :: 0 <= i < |Split(s)| ==> '\n' !in Split(s)[i]
  {
    if s != [] {
      SplitPieces(s[1..]);
    }
  }

  /** Joining the pieces of a split gives back the text. */
  lemma {:induction false} JoinSplit(s: string)
    ensures JoinLines(Split(s)) == s
  {
    if s == [] {
    } else if s[0] == '\n' {
      JoinSplit(s[1..]);
      var t := Split(s[1..]);
      assert Split(s) == [""] + t;
      assert ([""] + t)[1..] == t;
    } else {
      JoinSplit(s[1..]);
      var t := Split(s[1..]);
      if |t| == 1 {
        assert JoinLines(t) == t[0];
      } else {
        assert JoinLines(t) == t[0] + "\n" + JoinLines(t[1..]);
        assert ([[s[0]] + t[0]] + t[1..])[1..] == t[1..];
      }
    }
  }

  /** Splitting the join of newline-free pieces gives back the pieces. */
  lemma {:induction false} SplitJoin(parts: seq<string>)
    requires |parts| >= 1
    requires forall i :: 0 <= i < |parts| ==> '\n' !in parts[i]
    ensures Split(JoinLines(parts)) == parts
  {
    if |parts| == 1 {
      SplitNoNewline(parts[0]);
    } else {
      var j := JoinLines(parts[1..]);
      SplitJoin(parts[1..]);
      assert JoinLines(parts) == parts[0] + ("\n" + j);
      SplitJoinStep(parts[0], j);
      assert [parts[0]] + parts[1..] == parts;
    }
  }

  /** A newline-free piece, a "\n", then more text. */
  lemma SplitJoinStep(p: string, j: string)
    requires '\n' !in p
    ensures Split(p + ("\n" + j)) == [p] + Split(j)
  {
    SplitAppend(p, "\n" + j);
    SplitNoNewline(p);
    assert "\n" + j == ['\n'] + j;
    SplitNewline(j);
    var tb := Split("\n" + j);
    assert tb == [""] + Split(j);
    assert AllButLast([p]) == [] && Last([p]) == p;
    assert p + tb[0] == p;
    assert tb[1..] == Split(j);
  }

  /** A text without "\n" splits into itself alone. */
  lemma {:induction false} SplitNoNewline(s: string)
    requires '\n' !in s
    ensures Split(s) == [s]
  {
    if s != [] {
      assert '\n' !in s[1..] by {
        forall k | 0 <= k < |s[1..]| ensures s[1..][k] != '\n' {
          assert s[1..][k] == s[k + 1];
        }
      }
      SplitNoNewline(s[1..]);
      assert [s[0]] + s[1..] == s;
    }
  }

  /** Splitting a concatenation: the last piece of the first text is joined to
      the first piece of the second. */
  lemma {:induction false} SplitAppend(a: string, b: string)
    ensures Split(a + b) == AllButLast(Split(a)) + [Last(Split(a)) + Split(b)[0]] + Split(b)[1..]
  {
    if a == [] {
      SplitAppendNone(b);
    } else {
      SplitAppend(a[1..], b);
      if a[0] == '\n' {
        SplitAppendNewline(a, b);
      } else {
        SplitAppendChar(a, b);
      }
    }
  }

  lemma SplitAppendNone(b: string)
    ensures Split([] + b) == AllButLast(Split([])) + [Last(Split([])) + Split(b)[0]] + Split(b)[1..]
  {
    assert [] + b == b;
    assert "" + Split(b)[0] == Split(b)[0];
    assert [] + [Split(b)[0]] + Split(b)[1..] == Split(b);
  }

  /** The step of SplitAppend when the first text starts with "\n". */
  lemma SplitAppendNewline(a: string, b: string)
    requires a != [] && a[0] == '\n'
    requires Split(a[1..] + b) == AllButLast(Split(a[1..])) + [Last(Split(a[1..])) + Split(b)[0]] + Split(b)[1..]
    ensures Split(a + b) == AllButLast(Split(a)) + [Last(Split(a)) + Split(b)[0]] + Split(b)[1..]
  {
    SplitHead(a, b);
    NewlineJoin(Split(a[1..]), Split(b));
  }

  /** The step of SplitAppend when the first text starts with another character. */
  lemma SplitAppendChar(a: string, b: string)
    requires a != [] && a[0] != '\n'
    requires Split(a[1..] + b) == AllButLast(Split(a[1..])) + [Last(Split(a[1..])) + Split(b)[0]] + Split(b)[1..]
    ensures Split(a + b) == AllButLast(Split(a)) + [Last(Split(a)) + Split(b)[0]] + Split(b)[1..]
  {
    SplitHead(a, b);
    ConsJoin(a[0], Split(a[1..]), Split(b));
  }

  /** Splitting a non-empty text, and the same text followed by more, by
      their first character. */
  lemma SplitHead(a: string, b: string)
    requires a != []
    ensures a[0] == '\n' ==> Split(a) == [""] + Split(a[1..]) && Split(a + b) == [""] + Split(a[1..] + b)
    ensures a[0] != '\n' ==>
      && Split(a) == [[a[0]] + Split(a[1..])[0]] + Split(a[1..])[1..]
      && Split(a + b) == [[a[0]] + Split(a[1..] + b)[0]] + Split(a[1..] + b)[1..]
  {
    assert (a + b)[0] == a[0] && (a + b)[1..] == a[1..] + b;
  }

  /** The sequence step of SplitAppend's newline case. */
  lemma NewlineJoin(ta: seq<string>, tb: seq<string>)
    requires |ta| >= 1 && |tb| >= 1
    ensures [""] + (AllButLast(ta) + [Last(ta) + tb[0]] + tb[1..])
      == AllButLast([""] + ta) + [Last([""] + ta) + tb[0]] + tb[1..]
  {
    assert AllButLast([""] + ta) == [""] + AllButLast(ta);
    assert Last([""] + ta) == Last(ta);
  }

  lemma SplitNewline(s: string)
    ensures Split(['\n'] + s) == [""] + Split(s)
  {
    assert (['\n'] + s)[1..] == s;
  }

  /** The sequence step of SplitAppend's second case. */
  lemma ConsJoin(c: char, ta: seq<string>, tb: seq<string>)
    requires |ta| >= 1 && |tb| >= 1
    ensures var t := AllButLast(ta) + [Last(ta) + tb[0]] + tb[1..];
      [[c] + t[0]] + t[1..]
      == AllButLast([[c] + ta[0]] + ta[1..]) + [Last([[c] + ta[0]] + ta[1..]) + tb[0]] + tb[1..]
  {
    if |ta| == 1 {
      var t := AllButLast(ta) + [Last(ta) + tb[0]] + tb[1..];
      assert AllButLast(ta) == [];
      assert t == [ta[0] + tb[0]] + tb[1..];
      assert t[0] == ta[0] + tb[0] && t[1..] == tb[1..];
      assert [c] + (ta[0] + tb[0]) == ([c] + ta[0]) + tb[0];
      assert [[c] + ta[0]] + ta[1..] == [[c] + ta[0]];
    } else {
      var t := AllButLast(ta) + [Last(ta) + tb[0]] + tb[1..];
      assert t[0] == ta[0];
      assert t[1..] == AllButLast(ta)[1..] + [Last(ta) + tb[0]] + tb[1..];
      assert AllButLast([[c] + ta[0]] + ta[1..]) == [[c] + ta[0]] + AllButLast(ta)[1..];
    }
  }

  /** The text of chunks received one after the other. */
  function Concat(chunks: seq<string>): string {
    if chunks == [] then "" else Concat(AllButLast(chunks)) + Last(chunks)
  }

  /** The complete lines in the text received so far. */
  function CompleteLines(chunks: seq<string>): seq<string> {
    AllButLast(Split(Concat(chunks)))
  }

  /** The text after the last "\n" received so far: what stays in the buffer. */
  function Pending(chunks: seq<string>): string {
    Last(Split(Concat(chunks)))
  }

  /** Chunk-boundary independence, in the form the read loop needs: appending
      a chunk to the pending text and splitting that yields exactly the lines
      the whole text gains, and leaves exactly the whole text's pending part. */
  lemma ChunkStep(chunks: seq<string>, c: string)
    ensures CompleteLines(chunks + [c]) == CompleteLines(chunks) + AllButLast(Split(Pending(chunks) + c))
    ensures Pending(chunks + [c]) == Last(Split(Pending(chunks) + c))
  {
    ConcatSnoc(chunks, c);
    var x := Concat(chunks);
    SplitTail(x, c);
    SplitOfAppend(AllButLast(Split(x)), Split(Last(Split(x)) + c));
  }

  lemma ConcatSnoc(chunks: seq<string>, c: string)
    ensures Concat(chunks + [c]) == Concat(chunks) + c
  {
    var all := chunks + [c];
    assert AllButLast(all) == chunks;
  }

  /** Splitting a text extended by `c` re-splits only its last piece. */
  lemma SplitTail(x: string, c: string)
    ensures Split(x + c) == AllButLast(Split(x)) + Split(Last(Split(x)) + c)
  {
    var sa := Split(x);
    var l, tc := Last(sa), Split(c);
    LastPieceAlone(x);
    PieceThen(l, c);
    SplitAppend(x, c);
    Regroup(Split(x + c), AllButLast(sa), [l + tc[0]], tc[1..], Split(l + c));
  }

  /** Concatenation regrouped. */
  lemma Regroup<T>(whole: seq<T>, front: seq<T>, mid: seq<T>, rest: seq<T>, tail: seq<T>)
    requires whole == front + mid + rest && tail == mid + rest
    ensures whole == front + tail
  {
  }

  /** The last piece of a split holds no "\n". */
  lemma LastPieceAlone(x: string)
    ensures Split(Last(Split(x))) == [Last(Split(x))]
  {
    var sa := Split(x);
    SplitPieces(x);
    assert '\n' !in sa[|sa| - 1];
    SplitNoNewline(Last(sa));
  }

  /** A text without "\n" joins the first piece of what follows it. */
  lemma PieceThen(l: string, c: string)
    requires Split(l) == [l]
    ensures Split(l + c) == [l + Split(c)[0]] + Split(c)[1..]
  {
    SplitAppend(l, c);
    assert AllButLast([l]) == [] && Last([l]) == l;
  }

  lemma SplitOfAppend(xs: seq<string>, w: seq<string>)
    requires |w| >= 1
    ensures AllButLast(xs + w) == xs + AllButLast(w) && Last(xs + w) == Last(w)
  {
    assert (xs + w)[..|xs + w| - 1] == xs + w[..|w| - 1];
  }

  /** Receiving more text never takes back a complete line. */
  lemma {:induction false} CompleteLinesGrow(xs: seq<string>, ys: seq<string>)
    ensures CompleteLines(xs) <= CompleteLines(xs + ys)
  {
    if ys == [] {
      assert xs + ys == xs;
    } else {
      var front := xs + AllButLast(ys);
      assert xs + ys == front + [Last(ys)];
      CompleteLinesGrow(xs, AllButLast(ys));
      ChunkStep(front, Last(ys));
    }
  }

  /** The lines complete after the first `n` chunks begin the lines
      complete after all of them. */
  lemma CompleteLinesOfPrefix(chunks: seq<string>, n: nat)
    requires n <= |chunks|
    ensures CompleteLines(chunks[..n]) <= CompleteLines(chunks)
  {
    CompleteLinesGrow(chunks[..n], chunks[n..]);
    assert chunks[..n] + chunks[n..] == chunks;
  }

  /** The buffer never holds a "\n", and the lines handed on, rejoined with
      the buffer, give back everything received. */
  lemma Reassemble(chunks: seq<string>)
    ensures '\n' !in Pending(chunks)
    ensures JoinLines(CompleteLines(chunks) + [Pending(chunks)]) == Concat(chunks)
  {
    var x := Concat(chunks);
    var sp := Split(x);
    SplitPieces(x);
    assert '\n' !in sp[|sp| - 1];
    assert AllButLast(sp) + [Last(sp)] == sp;
    JoinSplit(x);
  }

  /** What a complete line carries: the text after "data:" and the white space
      that follows it, once the line is trimmed; nothing when the trimmed line
      does not start with "data:" or the rest is empty or "[DONE]". */
  function Payload(line: string): (r: Option<string>)
    ensures r.Some? ==>
      var t := Trim(line);
      && StartsWith(t, "data:")
      && 5 + |r.value| <= |t| && t[|t| - |r.value|..] == r.value
      && (forall k :: 5 <= k < |t| - |r.value| ==> IsSpace(t[k]))
    ensures r.Some? ==> r.value != "" && r.value != "[DONE]" && !IsSpace(r.value[0])
    ensures !StartsWith(Trim(line), "data:") ==> r.None?
  {
    var t := Trim(line);
    if !StartsWith(t, "data:") then None
    else
      var d := TrimStart(t[5..]);
      AfterPrefix(t, d);
      if d == "" || d == "[DONE]" then None else Some(d)
  }

  /** What stays of `t` once its first five characters and the white space
      after them are dropped. */
  lemma AfterPrefix(t: string, d: string)
    requires 5 <= |t| && d == TrimStart(t[5..])
    ensures 5 + |d| <= |t| && t[|t| - |d|..] == d
    ensures forall k :: 5 <= k < |t| - |d| ==> IsSpace(t[k])
    ensures d != "" ==> !IsSpace(d[0])
  {
    var u := t[5..];
    DropThenSuffix(t, 5, |d|);
    forall k | 5 <= k < |t| - |d|
      ensures IsSpace(t[k])
    {
      assert t[k] == u[k - 5];
    }
  }

  /** A suffix of what follows the first `n` elements is a suffix of the whole. */
  lemma DropThenSuffix<T>(t: seq<T>, n: nat, m: nat)
    requires n + m <= |t|
    ensures t[|t| - m..] == t[n..][|t| - n - m..]
  {
  }

  /** A frame "data:" + white space + payload, surrounded by any white space,
      carries exactly that payload when it is trimmed, not empty and not
      "[DONE]". */
  lemma FrameRoundTrip(lead: string, gap: string, p: string, trail: string)
    requires Blank(lead) && Blank(gap) && Blank(trail)
    requires p != "" && p != "[DONE]" && !IsSpace(p[0]) && !IsSpace(p[|p| - 1])
    ensures Payload(lead + "data:" + gap + p + trail) == Some(p)
  {
    FrameCarries(lead, gap, p, trail);
  }

  /** The same for any trimmed payload, "[DONE]" included, which carries nothing. */
  lemma FrameCarries(lead: string, gap: string, p: string, trail: string)
    requires Blank(lead) && Blank(gap) && Blank(trail)
    requires p != "" && !IsSpace(p[0]) && !IsSpace(p[|p| - 1])
    ensures Payload(lead + "data:" + gap + p + trail) == if p == "[DONE]" then None else Some(p)
  {
    var core := "data:" + (gap + p);
    assert lead + "data:" + gap + p + trail == lead + core + trail;
    assert core[0] == 'd';
    assert core[|core| - 1] == p[|p| - 1];
    TrimAround(lead, core, trail);
    TrimStartSkips(gap, p);
    PayloadOf(lead + core + trail, gap + p);
  }

  /** Payload, once the trimmed line is known to be "data:" + rest. */
  lemma PayloadOf(line: string, rest: string)
    requires Trim(line) == "data:" + rest
    ensures Payload(line) ==
      var d := TrimStart(rest);
      if d == "" || d == "[DONE]" then None else Some(d)
  {
    var t := Trim(line);
    assert t[..5] == "data:";
    assert t[5..] == rest;
  }

  /** Trimming removes exactly the white space around a text that neither
      starts nor ends with white space. */
  lemma TrimAround(lead: string, s: string, trail: string)
    requires Blank(lead) && Blank(trail)
    requires s != [] && !IsSpace(s[0]) && !IsSpace(s[|s| - 1])
    ensures Trim(lead + s + trail) == s
  {
    assert lead + s + trail == lead + (s + trail);
    assert (s + trail)[0] == s[0];
    TrimStartSkips(lead, s + trail);
    TrimEndSkips(s, trail);
  }

  lemma {:induction false} TrimStartSkips(ws: string, s: string)
    requires Blank(ws)
    requires s != [] && !IsSpace(s[0])
    ensures TrimStart(ws + s) == s
  {
    if ws != [] {
      assert (ws + s)[0] == ws[0];
      assert (ws + s)[1..] == ws[1..] + s;
      assert Blank(ws[1..]) by {
        forall k | 0 <= k < |ws[1..]| ensures IsSpace(ws[1..][k]) {
          assert ws[1..][k] == ws[k + 1];
        }
      }
      TrimStartSkips(ws[1..], s);
    } else {
      assert ws + s == s;
    }
  }

  lemma {:induction false} TrimEndSkips(s: string, ws: string)
    requires Blank(ws)
    requires s != [] && !IsSpace(s[|s| - 1])
    ensures TrimEnd(s + ws) == s
  {
    if ws != [] {
      var n := |ws| - 1;
      assert (s + ws)[|s + ws| - 1] == ws[n];
      assert (s + ws)[..|s + ws| - 1] == s + ws[..n];
      assert Blank(ws[..n]) by {
        forall k | 0 <= k < n ensures IsSpace(ws[..n][k]) {
          assert ws[..n][k] == ws[k];
        }
      }
      TrimEndSkips(s, ws[..n]);
    } else {
      assert s + ws == s;
    }
  }

  /** A data frame carrying "[DONE]", with any white space around it, is
      skipped like any line that is not a data frame. */
  lemma SkippedDone(lead: string, gap: string, trail: string)
    requires Blank(lead) && Blank(gap) && Blank(trail)
    ensures Payload(lead + "data:" + gap + "[DONE]" + trail) == None
  {
    FrameCarries(lead, gap, "[DONE]", trail);
  }

  /** A data frame whose payload is only white space, or nothing, is skipped. */
  lemma SkippedEmpty(line: string)
    requires StartsWith(Trim(line), "data:") && Blank(Trim(line)[5..])
    ensures Payload(line) == None
  {
  }

  /** The event a complete line carries: its payload, parsed as JSON; a
      payload `JSON.parse` rejects is skipped. */
  function Decode(line: string, parse: string -> Option<Value>): Option<Value> {
    match Payload(line)
    case None => None
    case Some(p) => parse(p)
  }
}
