/** The Instagram messaging service's long-message handling: splitting a
    reply into chunks at natural break points and sending one message per
    chunk. */
module Messaging {
  import opened Text

  /** Instagram's maximum message length before splitting. */
  const MessageMaxLength: int := 800

  /** Where _split_message cuts a text that is too long. */
  function SplitPoint(text: string, maxLength: int): (r: nat)
    requires 1 <= maxLength < |text|
    ensures r <= maxLength
    ensures r < maxLength ==> IsSpace(text[r])
  {
    var nl := RFind(text, '\n', maxLength);
    if nl != -1 then nl
    else
      var sp := RFind(text, ' ', maxLength);
      if sp != -1 then sp else maxLength
  }

  /** The split point is the last newline before maxLength, else the last
      space before it, else maxLength itself. */
  lemma SplitPointChoice(text: string, maxLength: int)
    requires 1 <= maxLength < |text|
    ensures var r := SplitPoint(text, maxLength);
      && ((exists k :: 0 <= k < maxLength && text[k] == '\n') ==>
            r < maxLength && text[r] == '\n' && forall k :: r < k < maxLength ==> text[k] != '\n')
      && ((forall k :: 0 <= k < maxLength ==> text[k] != '\n') && r < maxLength ==>
            text[r] == ' ' && forall k :: r < k < maxLength ==> text[k] != ' ')
      && (r == maxLength <==> forall k :: 0 <= k < maxLength ==> text[k] != '\n' && text[k] != ' ')
  {
  }

  /** Cutting at the split point and stripping what remains leaves strictly
      less text: this is why the loop ends when maxLength >= 1. */
  lemma RestShrinks(text: string, maxLength: int)
    requires 1 <= maxLength < |text|
    ensures |Strip(text[SplitPoint(text, maxLength)..])| < |text|
  {
    var k := SplitPoint(text, maxLength);
    var tail := text[k..];
    assert |tail| == |text| - k;
    if k < maxLength {
      assert tail[0] == text[k];
    }
    StripShorter(tail);
  }

  /** No piece is longer than maxLength. */
  predicate AllWithin(pieces: seq<string>, maxLength: int)
  {
    forall c :: c in pieces ==> |c| <= maxLength
  }

  /** The chunks _split_message returns; none is longer than maxLength. */
  function Chunks(text: string, maxLength: int): (r: seq<string>)
    requires maxLength >= 1
    ensures AllWithin(r, maxLength)
    decreases |text|
  {
    if |text| <= maxLength then (if text == [] then [] else [text])
    else
      var k := SplitPoint(text, maxLength);
      RestShrinks(text, maxLength);
      var first := Strip(text[..k]);
      var rest := Chunks(Strip(text[k..]), maxLength);
      StripShorter(text[..k]);
      WithinCons(first, rest, maxLength);
      [first] + rest
  }

  lemma WithinCons(first: string, rest: seq<string>, maxLength: int)
    requires |first| <= maxLength && AllWithin(rest, maxLength)
    ensures AllWithin([first] + rest, maxLength)
  {
  }

  /** _split_message: the while loop that cuts chunks off the front of the
      text. */
  method SplitMessage(text: string, maxLength: int) returns (chunks: seq<string>)
    requires maxLength >= 1
    ensures chunks == Chunks(text, maxLength)
  {
    chunks := [];
    var rest := text;
    assert chunks + Chunks(rest, maxLength) == Chunks(text, maxLength);
    while |rest| > maxLength
      invariant chunks + Chunks(rest, maxLength) == Chunks(text, maxLength)
      decreases |rest|
    {
      var splitAt := RFind(rest, '\n', maxLength);
      if splitAt == -1 {
        splitAt := RFind(rest, ' ', maxLength);
      }
      if splitAt == -1 {
        splitAt := maxLength;
      }
      assert splitAt == SplitPoint(rest, maxLength);
      LoopStep(text, rest, chunks, maxLength);
      chunks := chunks + [Strip(rest[..splitAt])];
      rest := Strip(rest[splitAt..]);
    }
    ChunksFit(rest, maxLength);
    if rest != [] {
      chunks := chunks + [rest];
    } else {
      assert chunks + [] == chunks;
    }
  }

  /** One turn of _split_message's loop keeps the chunks found so far
      followed by the chunks of the rest equal to the chunks of the input,
      and shortens the rest. */
  lemma LoopStep(text: string, rest: string, done: seq<string>, maxLength: int)
    requires 1 <= maxLength < |rest|
    requires maxLength >= 1 && done + Chunks(rest, maxLength) == Chunks(text, maxLength)
    ensures var k := SplitPoint(rest, maxLength);
      && (done + [Strip(rest[..k])]) + Chunks(Strip(rest[k..]), maxLength) == Chunks(text, maxLength)
      && |Strip(rest[k..])| < |rest|
  {
    var k := SplitPoint(rest, maxLength);
    RestShrinks(rest, maxLength);
    ChunksStep(rest, maxLength);
    AppendAssoc(done, [Strip(rest[..k])], Chunks(Strip(rest[k..]), maxLength));
  }

  /** One turn of the loop: the first chunk is cut off at the split point. */
  lemma ChunksStep(text: string, maxLength: int)
    requires 1 <= maxLength < |text|
    ensures var k := SplitPoint(text, maxLength);
      Chunks(text, maxLength) == [Strip(text[..k])] + Chunks(Strip(text[k..]), maxLength)
  {
  }

  /** What is left once it fits is the last chunk, if any. */
  lemma ChunksFit(text: string, maxLength: int)
    requires 1 <= maxLength && |text| <= maxLength
    ensures Chunks(text, maxLength) == if text == [] then [] else [text]
  {
  }

  function Concat(parts: seq<string>): string
  {
    if parts == [] then [] else parts[0] + Concat(parts[1..])
  }

  lemma ConcatSingle(s: string)
    ensures Concat([s]) == s
  {
    assert [s][1..] == [];
    assert s + [] == s;
  }

  /** Splitting "" gives no chunk at all. */
  lemma ChunksEmpty(maxLength: int)
    requires maxLength >= 1
    ensures Chunks("", maxLength) == []
  {
  }

  /** A non-empty text that fits comes back as one chunk, unstripped. */
  lemma ChunksShort(text: string, maxLength: int)
    requires maxLength >= 1 && 0 < |text| <= maxLength
    ensures Chunks(text, maxLength) == [text]
  {
  }

  /** The chunks together keep every non-whitespace character of the text,
      in order: only whitespace at the cuts is lost. */
  lemma {:induction false} ChunksKeepContent(text: string, maxLength: int)
    requires maxLength >= 1
    ensures NonSpace(Concat(Chunks(text, maxLength))) == NonSpace(text)
    decreases |text|
  {
    if |text| <= maxLength {
      if text != [] {
        ConcatSingle(text);
      }
    } else {
      var k := SplitPoint(text, maxLength);
      RestShrinks(text, maxLength);
      KeepContentStep(text, maxLength);
      StripKeepsNonSpace(text[..k]);
      ChunksKeepContent(Strip(text[k..]), maxLength);
      StripKeepsNonSpace(text[k..]);
      NonSpaceSplit(text, k);
    }
  }

  /** The content of the chunks is that of the first chunk followed by that
      of the chunks of the rest. */
  lemma KeepContentStep(text: string, maxLength: int)
    requires 1 <= maxLength < |text|
    ensures var k := SplitPoint(text, maxLength);
      NonSpace(Concat(Chunks(text, maxLength)))
        == NonSpace(Strip(text[..k])) + NonSpace(Concat(Chunks(Strip(text[k..]), maxLength)))
  {
    var k := SplitPoint(text, maxLength);
    var first := Strip(text[..k]);
    var rest := Chunks(Strip(text[k..]), maxLength);
    ChunksStep(text, maxLength);
    ConcatCons(first, rest);
    NonSpaceAppend(first, Concat(rest));
  }

  lemma NonSpaceSplit(s: string, k: nat)
    requires k <= |s|
    ensures NonSpace(s) == NonSpace(s[..k]) + NonSpace(s[k..])
  {
    assert s == s[..k] + s[k..];
    NonSpaceAppend(s[..k], s[k..]);
  }

  lemma ConcatCons(first: string, rest: seq<string>)
    ensures Concat([first] + rest) == first + Concat(rest)
  {
    assert ([first] + rest)[1..] == rest;
  }

  /** Neither end of s is whitespace. */
  predicate Trimmed(s: string)
  {
    s == [] || (!IsSpace(s[0]) && !IsSpace(s[|s| - 1]))
  }

  lemma {:induction false} ChunksTrimmed(text: string, maxLength: int)
    requires maxLength >= 1 && |text| > maxLength
    ensures forall c :: c in Chunks(text, maxLength) ==> Trimmed(c)
    decreases |text|
  {
    var k := SplitPoint(text, maxLength);
    RestShrinks(text, maxLength);
    StripEnds(text[..k]);
    if |Strip(text[k..])| > maxLength {
      ChunksTrimmed(Strip(text[k..]), maxLength);
    } else {
      StripEnds(text[k..]);
      LastChunkTrimmed(Strip(text[k..]), maxLength);
    }
    ChunksStep(text, maxLength);
    TrimmedCons(Strip(text[..k]), Chunks(Strip(text[k..]), maxLength));
  }

  /** A trimmed rest that fits is the last chunk, if any. */
  lemma LastChunkTrimmed(t: string, maxLength: int)
    requires maxLength >= 1 && |t| <= maxLength && Trimmed(t)
    ensures forall c :: c in Chunks(t, maxLength) ==> Trimmed(c)
  {
    ChunksFit(t, maxLength);
  }

  lemma TrimmedCons(first: string, rest: seq<string>)
    requires Trimmed(first) && forall c :: c in rest ==> Trimmed(c)
    ensures forall c :: c in [first] + rest ==> Trimmed(c)
  {
  }

  /** When the text had to be split, every chunk is its own strip. */
  lemma ChunksStripped(text: string, maxLength: int)
    requires maxLength >= 1 && |text| > maxLength
    ensures forall c :: c in Chunks(text, maxLength) ==> Strip(c) == c
  {
    ChunksTrimmed(text, maxLength);
    forall c | c in Chunks(text, maxLength)
      ensures Strip(c) == c
    {
      StripFixed(c);
    }
  }

  /** The messages send_long_message sends for a text, in order: every
      one within Instagram's limit, together keeping all the
      non-whitespace content of the text. */
  function Outgoing(text: string): (r: seq<string>)
    ensures AllWithin(r, MessageMaxLength)
    ensures NonSpace(Concat(r)) == NonSpace(text)
  {
    if |text| <= MessageMaxLength then
      ConcatSingle(text);
      [text]
    else
      ChunksKeepContent(text, MessageMaxLength);
      Chunks(text, MessageMaxLength)
  }

  /** One send_message call as the API records it. */
  datatype Response = Response(recipient: string, text: string)

  /** The service; outbox is the sequence of messages the Graph API has
      been asked to deliver. */
  class MessagingService {
    var outbox: seq<Response>

    constructor()
      ensures outbox == []
    {
      outbox := [];
    }

    method SendMessage(recipient: string, text: string) returns (r: Response)
      modifies this
      ensures r == Response(recipient, text)
      ensures outbox == old(outbox) + [r]
    {
      r := Response(recipient, text);
      outbox := outbox + [r];
    }

    /** The for loop of send_long_message: one send per piece, in order. */
    method SendEach(recipient: string, pieces: seq<string>) returns (responses: seq<Response>)
      modifies this
      ensures |responses| == |pieces|
      ensures forall k :: 0 <= k < |responses| ==> responses[k] == Response(recipient, pieces[k])
      ensures outbox == old(outbox) + responses
    {
      responses := [];
      var i := 0;
      while i < |pieces|
        invariant 0 <= i <= |pieces|
        invariant |responses| == i
        invariant forall k :: 0 <= k < i ==> responses[k] == Response(recipient, pieces[k])
        invariant outbox == old(outbox) + responses
      {
        var r := SendMessage(recipient, pieces[i]);
        responses := responses + [r];
        i := i + 1;
      }
    }

    /** send_long_message: one send when the text fits, else one send per
        chunk in order; the responses come back in sending order. */
    method SendLongMessage(recipient: string, text: string) returns (responses: seq<Response>)
      modifies this
      ensures |responses| == |Outgoing(text)|
      ensures forall k :: 0 <= k < |responses| ==> responses[k] == Response(recipient, Outgoing(text)[k])
      ensures outbox == old(outbox) + responses
    {
      if |text| <= MessageMaxLength {
        var r := SendMessage(recipient, text);
        responses := [r];
        return;
      }
      var chunks := SplitMessage(text, MessageMaxLength);
      responses := SendEach(recipient, chunks);
    }
  }
}
