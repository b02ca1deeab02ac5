/** Line framing of the event stream: the decoded text is collected in a buffer,
    split on '\n', every complete line is handed on and the unterminated tail is
    kept for the next chunk (src/services/tencentSSEChat.ts:127-158, chat.ts:91-142). */
module Framing {

  predicate NoNewline(s: string) {
    '\n' !in s
  }

  predicate AllNoNewline(lines: seq<string>) {
    forall i {:trigger NoNewline(lines[i])} :: 0 <= i < |lines| ==> NoNewline(lines[i])
  }

  /** The text made of `lines`, each followed by a newline. */
  function Terminated(lines: seq<string>): string {
    if lines == [] then "" else lines[0] + "\n" + Terminated(lines[1..])
  }

  /** All text received from `chunks`, in arrival order. */
  function Concat(chunks: seq<string>): string {
    if chunks == [] then "" else Concat(chunks[..|chunks| - 1]) + chunks[|chunks| - 1]
  }

  /** The index of the first newline of `s`. */
  function FirstNewline(s: string): (r: nat)
    requires '\n' in s
    ensures r < |s| && s[r] == '\n' && NoNewline(s[..r])
  {
    if s[0] == '\n' then 0
    else
      var r := 1 + FirstNewline(s[1..]);
      assert s[..r] == [s[0]] + s[1..][..r - 1];
      r
  }

  /** `s.split('\n')`: the pieces between newlines; there is always at least one. */
  function Split(s: string): (parts: seq<string>)
    ensures |parts| >= 1
    decreases |s|
  {
    if '\n' !in s then [s]
    else
      var i := FirstNewline(s);
      [s[..i]] + Split(s[i + 1..])
  }

  /** No piece of `Split(s)` holds a newline, and the pieces joined back with their
      newlines give `s` again. */
  lemma {:induction false} SplitReconstructs(s: string)
    ensures AllNoNewline(Split(s))
    ensures Terminated(Split(s)[..|Split(s)| - 1]) + Split(s)[|Split(s)| - 1] == s
    decreases |s|
  {
    if '\n' in s {
      var i := FirstNewline(s);
      var x, rest := s[..i], Split(s[i + 1..]);
      SplitReconstructs(s[i + 1..]);
      ConsPieces(x, rest);
      CutAtNewline(s, i);
    } else {
      assert Split(s)[..0] == [];
    }
  }

  /** A piece put in front of newline-free pieces. */
  lemma ConsPieces(x: string, rest: seq<string>)
    requires |rest| >= 1 && NoNewline(x) && AllNoNewline(rest)
    ensures AllNoNewline([x] + rest)
    ensures Terminated(([x] + rest)[..|rest|]) + ([x] + rest)[|rest|]
         == x + "\n" + (Terminated(rest[..|rest| - 1]) + rest[|rest| - 1])
  {
    var parts := [x] + rest;
    var init := parts[..|rest|];
    assert init[0] == x;
    assert init[1..] == rest[..|rest| - 1];
    assert parts[|rest|] == rest[|rest| - 1];
    forall k | 0 <= k < |parts| ensures NoNewline(parts[k]) {
      if k > 0 { assert parts[k] == rest[k - 1]; }
    }
  }

  /** A text is the part before a newline, the newline and the part after it. */
  lemma CutAtNewline(s: string, i: nat)
    requires i < |s| && s[i] == '\n'
    ensures s == s[..i] + "\n" + s[i + 1..]
  {
  }

  /** The complete lines of `s`: those whose newline has been received. */
  function Lines(s: string): seq<string> {
    var p := Split(s); p[..|p| - 1]
  }

  /** The text after the last newline of `s`: what stays in the buffer. */
  function Pending(s: string): string {
    var p := Split(s); p[|p| - 1]
  }

  lemma {:induction false} TerminatedAppend(a: seq<string>, b: seq<string>)
    ensures Terminated(a + b) == Terminated(a) + Terminated(b)
    decreases |a|
  {
    if a != [] {
      assert (a + b)[1..] == a[1..] + b;
      TerminatedAppend(a[1..], b);
    } else {
      assert a + b == b;
    }
  }

  /** In a framed text, the first newline is the one ending the first line. */
  lemma FirstNewlineOfFraming(lines: seq<string>, tail: string)
    requires AllNoNewline(lines) && NoNewline(tail)
    ensures '\n' in Terminated(lines) + tail <==> lines != []
    ensures lines != [] ==> FirstNewline(Terminated(lines) + tail) == |lines[0]|
  {
    var s := Terminated(lines) + tail;
    if lines == [] {
      assert s == tail;
    } else {
      var x := lines[0];
      assert NoNewline(x);
      assert s == x + "\n" + (Terminated(lines[1..]) + tail);
      assert s[|x|] == '\n';
      var f := FirstNewline(s);
      assert forall i :: 0 <= i < |x| ==> s[i] == x[i];
    }
  }

  /** Splitting a text into newline-free lines and a newline-free tail can be done
      in one way only. */
  lemma {:induction false} FramingUnique(l1: seq<string>, b1: string, l2: seq<string>, b2: string)
    requires AllNoNewline(l1) && NoNewline(b1) && AllNoNewline(l2) && NoNewline(b2)
    requires Terminated(l1) + b1 == Terminated(l2) + b2
    ensures l1 == l2 && b1 == b2
    decreases |l1|
  {
    FirstNewlineOfFraming(l1, b1);
    FirstNewlineOfFraming(l2, b2);
    if l1 == [] {
      assert Terminated(l1) + b1 == b1 && Terminated(l2) + b2 == b2;
    } else {
      FrameHead(l1, b1);
      FrameHead(l2, b2);
      SameCut(l1[0], Terminated(l1[1..]) + b1, l2[0], Terminated(l2[1..]) + b2);
      FramingUnique(l1[1..], b1, l2[1..], b2);
      assert l1 == [l1[0]] + l1[1..];
      assert l2 == [l2[0]] + l2[1..];
    }
  }

  /** A framed text starts with its first line and a newline. */
  lemma FrameHead(lines: seq<string>, tail: string)
    requires lines != []
    ensures Terminated(lines) + tail == lines[0] + "\n" + (Terminated(lines[1..]) + tail)
  {
  }

  /** Two ways of writing a text around a newline at the same place agree. */
  lemma SameCut(x: string, a: string, y: string, b: string)
    requires x + "\n" + a == y + "\n" + b && |x| == |y|
    ensures x == y && a == b
  {
    var s := x + "\n" + a;
    assert x == s[..|x|] == y;
    assert a == s[|x| + 1..] == b;
  }

  /** The framing of `s` is the unique one: whenever newline-free `lines` and
      `tail` reconstruct `s`, they are its complete lines and its pending tail. */
  lemma LinesCharacterized(s: string, lines: seq<string>, tail: string)
    requires AllNoNewline(lines) && NoNewline(tail)
    requires Terminated(lines) + tail == s
    ensures Lines(s) == lines && Pending(s) == tail
  {
    var p := Split(s);
    SplitReconstructs(s);
    assert AllNoNewline(p[..|p| - 1]);
    FramingUnique(p[..|p| - 1], p[|p| - 1], lines, tail);
  }

  /** Text after the last newline adds no line, however much of it arrives: a
      stream that ends without a final newline loses its last partial line. */
  lemma UnterminatedTailAddsNoLine(s: string, tail: string)
    requires NoNewline(tail)
    ensures Lines(s + tail) == Lines(s)
    ensures Pending(s + tail) == Pending(s) + tail
  {
    SplitFacts(s);
    NoNewlineAppend(Pending(s), tail);
    ConcatAssoc(Terminated(Lines(s)), Pending(s), tail);
    LinesCharacterized(s + tail, Lines(s), Pending(s) + tail);
  }

  /** Every newline-terminated line is delivered, exactly as it was sent. */
  lemma TerminatedLinesRecovered(lines: seq<string>)
    requires AllNoNewline(lines)
    ensures Lines(Terminated(lines)) == lines && Pending(Terminated(lines)) == ""
  {
    LinesCharacterized(Terminated(lines), lines, "");
  }

  /** One step of the read loop: the buffer so far plus a new chunk is split, the
      complete pieces are handed on and the last one is kept. If the lines handed
      on before and the buffer reconstructed the text received before, they still
      do after the step. */
  lemma {:induction false} FeedStep(done: seq<string>, buffer: string, chunk: string, received: string)
    requires AllNoNewline(done) && NoNewline(buffer)
    requires Terminated(done) + buffer == received
    ensures AllNoNewline(done + Lines(buffer + chunk)) && NoNewline(Pending(buffer + chunk))
    ensures Terminated(done + Lines(buffer + chunk)) + Pending(buffer + chunk) == received + chunk
  {
    var text := buffer + chunk;
    var emitted, tail := Lines(text), Pending(text);
    SplitFacts(text);
    TerminatedAppend(done, emitted);
    ConcatAssoc(Terminated(done), Terminated(emitted), tail);
    ConcatAssoc(Terminated(done), buffer, chunk);
    AllNoNewlineAppend(done, emitted);
  }

  lemma ConcatAssoc<T>(a: seq<T>, b: seq<T>, c: seq<T>)
    ensures a + b + c == a + (b + c)
  {
  }

  lemma NoNewlineAppend(a: string, b: string)
    requires NoNewline(a) && NoNewline(b)
    ensures NoNewline(a + b)
  {
  }

  lemma AllNoNewlineAppend(a: seq<string>, b: seq<string>)
    requires AllNoNewline(a) && AllNoNewline(b)
    ensures AllNoNewline(a + b)
  {
    forall i | 0 <= i < |a + b| ensures NoNewline((a + b)[i]) {
      if i < |a| { assert (a + b)[i] == a[i]; }
      else { assert (a + b)[i] == b[i - |a|]; }
    }
  }

  /** What `Split` promises, restated for `Lines` and `Pending`. */
  lemma SplitFacts(s: string)
    ensures AllNoNewline(Lines(s)) && NoNewline(Pending(s))
    ensures Terminated(Lines(s)) + Pending(s) == s
  {
    var p := Split(s);
    SplitReconstructs(s);
    assert forall i :: 0 <= i < |p| - 1 ==> p[..|p| - 1][i] == p[i];
  }

  /** What handing `lines` one by one to `handle` produces, in order. */
  function Emit<T>(lines: seq<string>, handle: string -> seq<T>): seq<T> {
    if lines == [] then [] else Emit(lines[..|lines| - 1], handle) + handle(lines[|lines| - 1])
  }

  lemma {:induction false} EmitAppend<T>(a: seq<string>, b: seq<string>, handle: string -> seq<T>)
    ensures Emit(a + b, handle) == Emit(a, handle) + Emit(b, handle)
    decreases |b|
  {
    if b == [] {
      assert a + b == a;
    } else {
      var b' := b[..|b| - 1];
      assert (a + b)[..|a + b| - 1] == a + b';
      assert (a + b)[|a + b| - 1] == b[|b| - 1];
      EmitAppend(a, b', handle);
    }
  }

  /** The inner `for (const line of lines)`: each complete line handed on in order. */
  method EmitAll<T>(lines: seq<string>, handle: string -> seq<T>) returns (out: seq<T>)
    ensures out == Emit(lines, handle)
  {
    out := [];
    for i := 0 to |lines|
      invariant out == Emit(lines[..i], handle)
    {
      assert lines[..i + 1][..i] == lines[..i];
      out := out + handle(lines[i]);
    }
    assert lines[..|lines|] == lines;
  }

  /** The read loop both clients run: each chunk is appended to `buffer`, the
      buffer is split on '\n', every piece but the last is handed on in order and
      the last becomes the new buffer; when the stream is done the buffer is left
      as it is. The lines handed on so far followed by the buffer are always
      exactly the text received so far. */
  method ReadLines<T>(chunks: seq<string>, handle: string -> seq<T>) returns (out: seq<T>)
    ensures out == Emit(Lines(Concat(chunks)), handle)
  {
    var buffer := "";
    ghost var handed: seq<string> := [];
    out := [];
    var k := 0;
    while k < |chunks|
      invariant 0 <= k <= |chunks|
      invariant AllNoNewline(handed) && NoNewline(buffer)
      invariant Terminated(handed) + buffer == Concat(chunks[..k])
      invariant out == Emit(handed, handle)
    {
      ghost var received := Concat(chunks[..k]);
      FeedStep(handed, buffer, chunks[k], received);
      assert chunks[..k + 1][..k] == chunks[..k];
      assert Concat(chunks[..k + 1]) == received + chunks[k];
      buffer := buffer + chunks[k];
      var lines := Split(buffer);
      var complete := lines[..|lines| - 1];
      assert complete == Lines(buffer) && lines[|lines| - 1] == Pending(buffer);
      var emitted := EmitAll(complete, handle);
      EmitAppend(handed, complete, handle);
      out := out + emitted;
      handed := handed + complete;
      buffer := lines[|lines| - 1];
      k := k + 1;
    }
    assert chunks[..k] == chunks;
    LinesCharacterized(Concat(chunks), handed, buffer);
  }

  lemma EmitOne<T>(x: string, handle: string -> seq<T>)
    ensures Emit([x], handle) == handle(x)
  {
    assert [x][..0] == [];
  }

  /** Handling a whole framed text is handling its lines one after another: what a
      line yields depends on that line alone. */
  lemma EmitFramed<T>(before: seq<string>, x: string, after: seq<string>, handle: string -> seq<T>)
    requires AllNoNewline(before + [x] + after)
    ensures Emit(Lines(Concat([Terminated(before + [x] + after)])), handle)
         == Emit(before, handle) + handle(x) + Emit(after, handle)
  {
    FramedChunk(before + [x] + after);
    EmitAppend(before + [x], after, handle);
    EmitAppend(before, [x], handle);
    EmitOne(x, handle);
  }

  /** A single chunk holding framed lines yields exactly those lines. */
  lemma FramedChunk(lines: seq<string>)
    requires AllNoNewline(lines)
    ensures Lines(Concat([Terminated(lines)])) == lines
  {
    assert Concat([Terminated(lines)]) == Terminated(lines) by {
      assert [Terminated(lines)][..0] == [];
    }
    TerminatedLinesRecovered(lines);
  }

  /** The same, with the lines before and after sent as framed chunks of their own. */
  lemma EmitFramedChunks<T>(before: seq<string>, x: string, after: seq<string>, handle: string -> seq<T>)
    requires AllNoNewline(before + [x] + after)
    ensures Emit(Lines(Concat([Terminated(before + [x] + after)])), handle)
         == Emit(Lines(Concat([Terminated(before)])), handle) + handle(x)
            + Emit(Lines(Concat([Terminated(after)])), handle)
  {
    EmitFramed(before, x, after, handle);
    assert AllNoNewline(before) && AllNoNewline(after) by {
      assert forall i :: 0 <= i < |before| ==> before[i] == (before + [x] + after)[i];
      assert forall i :: 0 <= i < |after| ==> after[i] == (before + [x] + after)[|before| + 1 + i];
    }
    FramedChunk(before);
    FramedChunk(after);
  }

  /** Everything emitted comes from handling one of the lines. */
  lemma {:induction false} EmitFrom<T>(lines: seq<string>, handle: string -> seq<T>)
    ensures forall x :: x in Emit(lines, handle) ==> exists i :: 0 <= i < |lines| && x in handle(lines[i])
  {
    if lines != [] {
      var init := lines[..|lines| - 1];
      EmitFrom(init, handle);
      forall x | x in Emit(lines, handle) ensures exists i :: 0 <= i < |lines| && x in handle(lines[i]) {
        if x in Emit(init, handle) {
          var i :| 0 <= i < |init| && x in handle(init[i]);
          assert lines[i] == init[i];
        } else {
          assert x in handle(lines[|lines| - 1]);
        }
      }
    }
  }
}
