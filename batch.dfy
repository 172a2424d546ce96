/** What process_user_messages does with one user's batch once it holds
    the lock: it orders the queued messages by timestamp, combines their
    texts with the stored image analyses into one message, and keeps the
    conversation context to its last entries. */
module Batch {
  import opened Wrappers
  import opened Text
  import opened Events
  import opened Sorting

  // ---------------------------------------------------------------------
  // Ordering the queue
  // ---------------------------------------------------------------------

  /** messages.sort(key=lambda x: x["timestamp"]). */
  function TimeRank(m: QueuedMessage): Rank
  {
    Rank(m.timestamp, 0.0)
  }

  function SortQueue(msgs: seq<QueuedMessage>): (r: seq<QueuedMessage>)
    ensures multiset(r) == multiset(msgs)
    ensures forall i, j :: 0 <= i < j < |r| ==> r[i].timestamp <= r[j].timestamp
  {
    SortBySorted(msgs, TimeRank);
    SortBy(msgs, TimeRank)
  }

  /** The sorted batch holds the same messages, by non-decreasing
      timestamp, and messages with equal timestamps keep their queue order. */
  lemma SortQueueSpec(msgs: seq<QueuedMessage>, t: int)
    ensures var r := SortQueue(msgs);
      && multiset(r) == multiset(msgs)
      && (forall i, j :: 0 <= i < j < |r| ==> r[i].timestamp <= r[j].timestamp)
      && WithRank(r, Rank(t, 0.0), TimeRank) == WithRank(msgs, Rank(t, 0.0), TimeRank)
  {
    SortBySorted(msgs, TimeRank);
    SortByStable(msgs, Rank(t, 0.0), TimeRank);
  }

  function Reversed<T>(s: seq<T>): (r: seq<T>)
    ensures |r| == |s|
    ensures forall k :: 0 <= k < |s| ==> r[k] == s[|s| - 1 - k]
  {
    if s == [] then [] else Reversed(s[1..]) + [s[0]]
  }

  /** A message whose timestamp is later than every queued one is placed
      last. */
  lemma {:induction false} InsertLatest(m: QueuedMessage, s: seq<QueuedMessage>)
    requires forall k :: 0 <= k < |s| ==> s[k].timestamp < m.timestamp
    ensures Insert(m, s, TimeRank) == s + [m]
  {
    if s != [] {
      InsertLatest(m, s[1..]);
      assert s == [s[0]] + s[1..];
    }
  }

  /** LPUSH puts each new message at the head of message_queue:, so the
      queue lists the batch newest first. When every message was queued at
      a later instant than the one before, sorting restores arrival order:
      the sorted batch is the queue reversed. */
  lemma {:induction false} SortRestoresArrival(q: seq<QueuedMessage>)
    requires forall i, j :: 0 <= i < j < |q| ==> q[i].timestamp > q[j].timestamp
    ensures SortQueue(q) == Reversed(q)
  {
    if q != [] {
      SortRestoresArrival(q[1..]);
      InsertLatest(q[0], Reversed(q[1..]));
    }
  }

  // ---------------------------------------------------------------------
  // Combining texts and image analyses
  // ---------------------------------------------------------------------

  /** What process_user_messages writes into text_messages for each image. */
  const PhotoNote: string := "Ο χρήστης έστειλε μια φωτογραφία"

  /** One contribution to the combined message: a message's text, or the
      image-analysis line that stands in for an image. */
  datatype Piece = Said(text: string) | Seen(analysis: string)

  /** What a piece adds to combined_message (notes false) or to
      text_messages (notes true): a text plus a newline; for an image, its
      analysis line, or the fixed note in text_messages. */
  function PieceText(p: Piece, notes: bool): string
  {
    match p
    case Said(t) => t + "\n"
    case Seen(a) => if notes then PhotoNote + "\n" else a
  }

  /** combined_message before its final strip, or text_messages. */
  function Render(ps: seq<Piece>, notes: bool): string
  {
    if ps == [] then [] else Render(ps[..|ps| - 1], notes) + PieceText(ps[|ps| - 1], notes)
  }

  lemma {:induction false} RenderAppend(a: seq<Piece>, b: seq<Piece>, notes: bool)
    ensures Render(a + b, notes) == Render(a, notes) + Render(b, notes)
  {
    if b != [] {
      var c := a + b;
      var init := b[..|b| - 1];
      assert c[..|c| - 1] == a + init;
      assert c[|c| - 1] == b[|b| - 1];
      RenderAppend(a, init, notes);
      assert Render(c, notes) == Render(a, notes) + Render(init, notes) + PieceText(b[|b| - 1], notes);
      AppendAssoc(Render(a, notes), Render(init, notes), PieceText(b[|b| - 1], notes));
    } else {
      assert a + b == a;
    }
  }

  lemma RenderSnoc(ps: seq<Piece>, p: Piece, notes: bool)
    ensures Render(ps + [p], notes) == Render(ps, notes) + PieceText(p, notes)
  {
    assert (ps + [p])[..|ps|] == ps;
  }

  /** The analysis lines among the pieces, in order. */
  function Seens(ps: seq<Piece>): (r: seq<string>)
    ensures forall s :: s in r <==> exists p :: p in ps && p.Seen? && p.analysis == s
  {
    if ps == [] then []
    else Seens(ps[..|ps| - 1]) + if ps[|ps| - 1].Seen? then [ps[|ps| - 1].analysis] else []
  }

  /** The message texts among the pieces, in order. */
  function Saids(ps: seq<Piece>): (r: seq<string>)
    ensures forall s :: s in r <==> exists p :: p in ps && p.Said? && p.text == s
  {
    if ps == [] then []
    else Saids(ps[..|ps| - 1]) + if ps[|ps| - 1].Said? then [ps[|ps| - 1].text] else []
  }

  lemma {:induction false} SeensAppend(a: seq<Piece>, b: seq<Piece>)
    ensures Seens(a + b) == Seens(a) + Seens(b)
  {
    if b != [] {
      var c := a + b;
      assert c[..|c| - 1] == a + b[..|b| - 1];
      SeensAppend(a, b[..|b| - 1]);
    } else {
      assert a + b == a;
    }
  }

  lemma {:induction false} SaidsAppend(a: seq<Piece>, b: seq<Piece>)
    ensures Saids(a + b) == Saids(a) + Saids(b)
  {
    if b != [] {
      var c := a + b;
      assert c[..|c| - 1] == a + b[..|b| - 1];
      SaidsAppend(a, b[..|b| - 1]);
    } else {
      assert a + b == a;
    }
  }

  /** The text piece of a queued message: msg["data"]["message"]["text"]
      when both keys are present. */
  function TextPieces(m: Messaging): (r: seq<Piece>)
    ensures Seens(r) == [] && |r| <= 1
  {
    if m.message.Some? && m.message.value.text.Some? then [Said(m.message.value.text.value)] else []
  }

  /** The image attachments of a message ([] without "message" or
      "attachments"). */
  function ImagesOf(m: Messaging): nat
  {
    if m.message.Some? && m.message.value.attachments.Some? then ImageCount(m.message.value.attachments.value) else 0
  }

  /** Number of image attachments of the messages. */
  function ImagesIn(msgs: seq<QueuedMessage>): nat
  {
    if msgs == [] then 0 else ImagesIn(msgs[..|msgs| - 1]) + ImagesOf(msgs[|msgs| - 1].data)
  }

  /** Every queued message carries a "message" object. */
  predicate AllMessages(msgs: seq<QueuedMessage>)
  {
    forall k :: 0 <= k < |msgs| ==> msgs[k].data.message.Some?
  }

  // ----------------------------------------------------- as written

  /** As written, every image's attachment position must index an
      analysis: the images fit when each one sits at a position below the
      number of analyses. */
  predicate ImagesFitAsWritten(atts: seq<Attachment>, analysis: seq<string>)
  {
    forall i :: 0 <= i < |atts| && IsImage(atts[i]) ==> i < |analysis|
  }

  lemma ImagesFitSnoc(atts: seq<Attachment>, analysis: seq<string>)
    requires atts != []
    ensures ImagesFitAsWritten(atts, analysis) <==>
      ImagesFitAsWritten(atts[..|atts| - 1], analysis) && (IsImage(atts[|atts| - 1]) ==> |atts| - 1 < |analysis|)
  {
    var init := atts[..|atts| - 1];
    assert forall i :: 0 <= i < |init| ==> init[i] == atts[i];
  }

  /** The image pieces of one message as the source writes them: the image
      at attachment position i takes image_analysis[i]; a position past the
      end of image_analysis raises IndexError (None). */
  function ImagePiecesAsWritten(atts: seq<Attachment>, analysis: seq<string>): (r: Option<seq<Piece>>)
    ensures r.Some? <==> ImagesFitAsWritten(atts, analysis)
  {
    if atts == [] then Some([])
    else
      var i := |atts| - 1;
      var init := ImagePiecesAsWritten(atts[..i], analysis);
      ImagesFitSnoc(atts, analysis);
      if !IsImage(atts[i]) then init
      else if init.None? || i >= |analysis| then None
      else Some(init.value + [Seen(analysis[i])])
  }

  /** As written, a message goes through when it carries "message" and its
      images fit their positions. */
  predicate MessageFitsAsWritten(m: Messaging, analysis: seq<string>)
  {
    m.message.Some? && (m.message.value.attachments.None? || ImagesFitAsWritten(m.message.value.attachments.value, analysis))
  }

  /** The pieces of one message as written; a message without "message"
      raises KeyError (None) when its attachments are looked up. */
  function MessagePiecesAsWritten(m: Messaging, analysis: seq<string>): (r: Option<seq<Piece>>)
    ensures r.Some? <==> MessageFitsAsWritten(m, analysis)
  {
    if m.message.None? then None
    else if m.message.value.attachments.None? then Some(TextPieces(m))
    else
      var images := ImagePiecesAsWritten(m.message.value.attachments.value, analysis);
      if images.None? then None else Some(TextPieces(m) + images.value)
  }

  predicate AllFitAsWritten(msgs: seq<QueuedMessage>, analysis: seq<string>)
  {
    forall k :: 0 <= k < |msgs| ==> MessageFitsAsWritten(msgs[k].data, analysis)
  }

  lemma AllFitSnoc(msgs: seq<QueuedMessage>, analysis: seq<string>)
    requires msgs != []
    ensures AllFitAsWritten(msgs, analysis) <==>
      AllFitAsWritten(msgs[..|msgs| - 1], analysis) && MessageFitsAsWritten(msgs[|msgs| - 1].data, analysis)
  {
    var init := msgs[..|msgs| - 1];
    assert forall k :: 0 <= k < |init| ==> init[k] == msgs[k];
  }

  /** The combining loop of process_user_messages as written: it raises
      exactly when some message lacks "message" or some image's position
      within its own message is not below the number of analyses. */
  function PiecesAsWritten(msgs: seq<QueuedMessage>, analysis: seq<string>): (r: Option<seq<Piece>>)
    ensures r.Some? <==> AllFitAsWritten(msgs, analysis)
  {
    if msgs == [] then Some([])
    else
      var init := PiecesAsWritten(msgs[..|msgs| - 1], analysis);
      var last := MessagePiecesAsWritten(msgs[|msgs| - 1].data, analysis);
      AllFitSnoc(msgs, analysis);
      if init.None? || last.None? then None else Some(init.value + last.value)
  }

  /** The two indexings fail on different batches. As written, an image
      after a non-image attachment needs an analysis at its own position:
      a message [video, image] with one analysis raises, while the running
      index gives the image the one analysis there is. */
  lemma AsWrittenFailsOnPosition(v: Attachment, img: Attachment, m: QueuedMessage, a: string)
    requires !IsImage(v) && IsImage(img)
    requires m.data.message == Some(Message(None, Some([v, img])))
    ensures PiecesAsWritten([m], [a]).None?
    ensures Pieces([m], [a]).Some?
  {
    assert !ImagesFitAsWritten([v, img], [a]) by {
      assert [v, img][1] == img;
    }
    assert !MessageFitsAsWritten([m][0].data, [a]);
    assert ImageCount([v, img]) == 1 by {
      assert [v, img][..1] == [v];
      assert [v][..0] == [];
    }
    assert [m][..0] == [];
  }

  /** And the other way round: as written, two messages of three images
      each read image_analysis[0..2] twice and go through with three
      analyses, while the running index needs six and runs out. */
  lemma AsWrittenReusesAnalyses(img: Attachment, m1: QueuedMessage, m2: QueuedMessage, a: string)
    requires IsImage(img)
    requires m1.data.message == Some(Message(None, Some([img, img, img])))
    requires m2.data.message == m1.data.message
    ensures PiecesAsWritten([m1, m2], [a, a, a]).Some?
    ensures Pieces([m1, m2], [a, a, a]).None?
  {
    var atts := [img, img, img];
    assert ImagesFitAsWritten(atts, [a, a, a]);
    assert MessageFitsAsWritten([m1, m2][0].data, [a, a, a]);
    assert MessageFitsAsWritten([m1, m2][1].data, [a, a, a]);
    assert ImageCount(atts) == 3 by {
      assert [img][..0] == [];
      assert ImageCount([img]) == 1;
      assert [img, img][..1] == [img];
      assert ImageCount([img, img]) == 2;
      assert atts[..2] == [img, img];
    }
    assert ImagesOf(m1.data) == 3 && ImagesOf(m2.data) == 3;
    assert ImagesIn([m1]) == 3 by {
      assert [m1][..0] == [];
    }
    assert ImagesIn([m1, m2]) == 6 by {
      assert [m1, m2][..1] == [m1];
    }
  }

  /** As written, each message restarts at image_analysis[0]: two queued
      messages with one image each both take the first analysis, and the
      second analysis never reaches the combined message. The running
      index gives each image its own analysis. */
  lemma AsWrittenRepeatsFirstAnalysis(m1: QueuedMessage, m2: QueuedMessage, a: string, b: string, img: Attachment)
    requires IsImage(img)
    requires m1.data.message == Some(Message(None, Some([img])))
    requires m2.data.message == Some(Message(None, Some([img])))
    ensures PiecesAsWritten([m1, m2], [a, b]) == Some([Seen(a), Seen(a)])
    ensures Pieces([m1, m2], [a, b]) == Some([Seen(a), Seen(b)])
  {
    assert [img][..0] == [];
    assert ImageCount([img]) == 1;
    assert ImagePiecesAsWritten([], [a, b]) == Some([]);
    assert ImagePieces([], [a, b], 0) == Some([]);
    assert ImagePieces([], [a, b], 1) == Some([]);
    assert [] + [Seen(a)] == [Seen(a)];
    assert [] + [Seen(b)] == [Seen(b)];
    assert ImagePiecesAsWritten([img], [a, b]) == Some([Seen(a)]);
    assert MessagePiecesAsWritten(m1.data, [a, b]) == Some([Seen(a)]);
    assert MessagePiecesAsWritten(m2.data, [a, b]) == Some([Seen(a)]);
    assert [m1, m2][..1] == [m1];
    assert [m1][..0] == [];
    assert PiecesAsWritten([m1], [a, b]) == Some([Seen(a)]);
    assert ImagesIn([m1]) == 1;
    assert ImagePieces([img], [a, b], 0) == Some([Seen(a)]);
    assert ImagePieces([img], [a, b], 1) == Some([Seen(b)]);
    assert MessagePieces(m1.data, [a, b], 0) == Some([Seen(a)]);
    assert MessagePieces(m2.data, [a, b], 1) == Some([Seen(b)]);
    assert Pieces([m1], [a, b]) == Some([Seen(a)]);
    assert [Seen(a)] + [Seen(a)] == [Seen(a), Seen(a)];
    assert [Seen(a)] + [Seen(b)] == [Seen(a), Seen(b)];
    assert PiecesAsWritten([m1, m2], [a, b]) == Some([Seen(a)] + [Seen(a)]);
    assert Pieces([m1, m2], [a, b]) == Some([Seen(a)] + [Seen(b)]);
  }

  // ------------------------------------------------------- corrected

  /** The image pieces of one message with a running index: its images take
      image_analysis[next], image_analysis[next + 1], ... in order; running
      out of analyses is the same IndexError (None). */
  function ImagePieces(atts: seq<Attachment>, analysis: seq<string>, next: nat): (r: Option<seq<Piece>>)
    ensures r.Some? <==> ImageCount(atts) == 0 || next + ImageCount(atts) <= |analysis|
  {
    if atts == [] then Some([])
    else
      var i := |atts| - 1;
      var init := ImagePieces(atts[..i], analysis, next);
      if !IsImage(atts[i]) then init
      else
        var at := next + ImageCount(atts[..i]);
        if init.None? || at >= |analysis| then None
        else Some(init.value + [Seen(analysis[at])])
  }

  /** The pieces of one message, its images numbered from next. */
  function MessagePieces(m: Messaging, analysis: seq<string>, next: nat): (r: Option<seq<Piece>>)
    ensures r.Some? <==> m.message.Some? && (ImagesOf(m) == 0 || next + ImagesOf(m) <= |analysis|)
  {
    if m.message.None? then None
    else if m.message.value.attachments.None? then Some(TextPieces(m))
    else
      var images := ImagePieces(m.message.value.attachments.value, analysis, next);
      if images.None? then None else Some(TextPieces(m) + images.value)
  }

  /** The combining loop with the image index running across the batch:
      the k-th image of the batch takes image_analysis[k]. It succeeds
      exactly when every queued message carries a "message" object and
      there are at least as many analyses as images. */
  function Pieces(msgs: seq<QueuedMessage>, analysis: seq<string>): (r: Option<seq<Piece>>)
    ensures r.Some? <==> AllMessages(msgs) && ImagesIn(msgs) <= |analysis|
  {
    if msgs == [] then Some([])
    else
      var init := Pieces(msgs[..|msgs| - 1], analysis);
      var last := MessagePieces(msgs[|msgs| - 1].data, analysis, ImagesIn(msgs[..|msgs| - 1]));
      AllMessagesSnoc(msgs);
      if init.None? || last.None? then None else Some(init.value + last.value)
  }

  /** The images of one message take the next ImageCount analyses, in order. */
  lemma {:induction false} ImagePiecesSeen(atts: seq<Attachment>, analysis: seq<string>, next: nat)
    requires next + ImageCount(atts) <= |analysis|
    ensures ImagePieces(atts, analysis, next).Some?
    ensures Seens(ImagePieces(atts, analysis, next).value) == analysis[next..next + ImageCount(atts)]
  {
    if atts != [] {
      var i := |atts| - 1;
      ImagePiecesSeen(atts[..i], analysis, next);
      var init := ImagePieces(atts[..i], analysis, next).value;
      if IsImage(atts[i]) {
        var at := next + ImageCount(atts[..i]);
        SeensAppend(init, [Seen(analysis[at])]);
        assert [Seen(analysis[at])][..0] == [];
        assert analysis[next..at] + [analysis[at]] == analysis[next..at + 1];
      }
    }
  }

  /** The pieces of one message: its text, then the next ImagesOf analyses. */
  lemma MessagePiecesContent(m: Messaging, analysis: seq<string>, next: nat)
    requires m.message.Some? && next + ImagesOf(m) <= |analysis|
    ensures MessagePieces(m, analysis, next).Some?
    ensures Seens(MessagePieces(m, analysis, next).value) == analysis[next..next + ImagesOf(m)]
    ensures Saids(MessagePieces(m, analysis, next).value) == Saids(TextPieces(m))
  {
    if m.message.value.attachments.Some? {
      var images := ImagePieces(m.message.value.attachments.value, analysis, next);
      ImagePiecesSeen(m.message.value.attachments.value, analysis, next);
      SeensAppend(TextPieces(m), images.value);
      SaidsAppend(TextPieces(m), images.value);
      assert Saids(images.value) == [] by {
        ImagePiecesSaid(m.message.value.attachments.value, analysis, next);
      }
    }
  }

  lemma {:induction false} ImagePiecesSaid(atts: seq<Attachment>, analysis: seq<string>, next: nat)
    requires ImagePieces(atts, analysis, next).Some?
    ensures Saids(ImagePieces(atts, analysis, next).value) == []
  {
    if atts != [] {
      var i := |atts| - 1;
      if IsImage(atts[i]) {
        var at := next + ImageCount(atts[..i]);
        var init := ImagePieces(atts[..i], analysis, next).value;
        ImagePiecesSaid(atts[..i], analysis, next);
        SaidsAppend(init, [Seen(analysis[at])]);
        assert [Seen(analysis[at])][..0] == [];
      } else {
        ImagePiecesSaid(atts[..i], analysis, next);
      }
    }
  }

  lemma {:induction false} ImagesInPrefix(msgs: seq<QueuedMessage>, n: nat)
    requires n <= |msgs|
    ensures ImagesIn(msgs[..n]) <= ImagesIn(msgs)
    decreases |msgs|
  {
    if n < |msgs| {
      var init := msgs[..|msgs| - 1];
      assert msgs[..n] == init[..n];
      ImagesInPrefix(init, n);
    } else {
      assert msgs[..n] == msgs;
    }
  }

  lemma AllMessagesSnoc(msgs: seq<QueuedMessage>)
    requires msgs != []
    ensures AllMessages(msgs) <==> AllMessages(msgs[..|msgs| - 1]) && msgs[|msgs| - 1].data.message.Some?
  {
    var init := msgs[..|msgs| - 1];
    if AllMessages(init) && msgs[|msgs| - 1].data.message.Some? {
      forall k | 0 <= k < |msgs|
        ensures msgs[k].data.message.Some?
      {
        if k < |init| {
          assert msgs[k] == init[k];
        }
      }
    }
  }

  /** The texts of the messages, in batch order. */
  function Texts(msgs: seq<QueuedMessage>): seq<string>
  {
    if msgs == [] then [] else Texts(msgs[..|msgs| - 1]) + Saids(TextPieces(msgs[|msgs| - 1].data))
  }

  /** With the running index the combined message uses each analysis once,
      in order: the k-th image of the batch is described by
      image_analysis[k]. */
  lemma {:induction false} PiecesSeen(msgs: seq<QueuedMessage>, analysis: seq<string>)
    requires AllMessages(msgs) && ImagesIn(msgs) <= |analysis|
    ensures Pieces(msgs, analysis).Some?
    ensures Seens(Pieces(msgs, analysis).value) == analysis[..ImagesIn(msgs)]
  {
    if msgs != [] {
      var init := msgs[..|msgs| - 1];
      AllMessagesSnoc(msgs);
      assert ImagesIn(msgs) == ImagesIn(init) + ImagesOf(msgs[|msgs| - 1].data);
      PiecesSeen(init, analysis);
      PiecesSeenStep(msgs, analysis);
    }
  }

  /** The inductive step of PiecesSeen: the last message's images take the
      analyses right after the earlier messages' ones. */
  lemma PiecesSeenStep(msgs: seq<QueuedMessage>, analysis: seq<string>)
    requires msgs != [] && msgs[|msgs| - 1].data.message.Some? && ImagesIn(msgs) <= |analysis|
    requires Pieces(msgs[..|msgs| - 1], analysis).Some?
    requires Seens(Pieces(msgs[..|msgs| - 1], analysis).value) == analysis[..ImagesIn(msgs[..|msgs| - 1])]
    ensures Pieces(msgs, analysis).Some?
    ensures Seens(Pieces(msgs, analysis).value) == analysis[..ImagesIn(msgs)]
  {
    var init := msgs[..|msgs| - 1];
    var m := msgs[|msgs| - 1].data;
    var next := ImagesIn(init);
    assert ImagesIn(msgs) == next + ImagesOf(m);
    AllMessagesSnoc(msgs);
    MessagePiecesContent(m, analysis, next);
    var ps := Pieces(init, analysis).value;
    var own := MessagePieces(m, analysis, next).value;
    PiecesSnoc(msgs, analysis);
    SeensJoin(analysis, ps, own, next, ImagesOf(m));
  }

  /** Two runs of pieces that describe adjacent stretches of the analyses
      describe their union. */
  lemma SeensJoin(analysis: seq<string>, ps: seq<Piece>, own: seq<Piece>, next: nat, k: nat)
    requires next + k <= |analysis|
    requires Seens(ps) == analysis[..next] && Seens(own) == analysis[next..next + k]
    ensures Seens(ps + own) == analysis[..next + k]
  {
    SeensAppend(ps, own);
    SliceJoin(analysis, next, next + k);
  }

  /** One message more: the batch's pieces are the earlier messages'
      followed by its own, read from the running image index. */
  lemma PiecesSnoc(msgs: seq<QueuedMessage>, analysis: seq<string>)
    requires msgs != []
    requires Pieces(msgs[..|msgs| - 1], analysis).Some?
    requires MessagePieces(msgs[|msgs| - 1].data, analysis, ImagesIn(msgs[..|msgs| - 1])).Some?
    ensures ImagesIn(msgs) == ImagesIn(msgs[..|msgs| - 1]) + ImagesOf(msgs[|msgs| - 1].data)
    ensures Pieces(msgs, analysis).value ==
      Pieces(msgs[..|msgs| - 1], analysis).value + MessagePieces(msgs[|msgs| - 1].data, analysis, ImagesIn(msgs[..|msgs| - 1])).value
  {
  }

  lemma SliceJoin(s: seq<string>, i: nat, j: nat)
    requires i <= j <= |s|
    ensures s[..i] + s[i..j] == s[..j]
  {
  }

  /** The combined message holds every message text, in batch order. */
  lemma {:induction false} PiecesSaid(msgs: seq<QueuedMessage>, analysis: seq<string>)
    requires AllMessages(msgs) && ImagesIn(msgs) <= |analysis|
    ensures Pieces(msgs, analysis).Some?
    ensures Saids(Pieces(msgs, analysis).value) == Texts(msgs)
  {
    if msgs != [] {
      var init := msgs[..|msgs| - 1];
      var m := msgs[|msgs| - 1].data;
      var next := ImagesIn(init);
      AllMessagesSnoc(msgs);
      PiecesSaid(init, analysis);
      MessagePiecesContent(m, analysis, next);
      SaidsAppend(Pieces(init, analysis).value, MessagePieces(m, analysis, next).value);
    }
  }

  /** The batch's combined_message and text_messages, or None when the
      combining raises. */
  function Combine(msgs: seq<QueuedMessage>, analysis: seq<string>): (r: Option<(string, string)>)
    ensures r.Some? <==> AllMessages(msgs) && ImagesIn(msgs) <= |analysis|
    ensures r.Some? ==> Strip(r.value.0) == r.value.0
  {
    var ps := Pieces(msgs, analysis);
    if ps.None? then None
    else
      StripIdempotent(Render(ps.value, false));
      Some((Strip(Render(ps.value, false)), Render(ps.value, true)))
  }

  /** One attachment more: the pieces grow by the image's analysis, or the
      lookup fails. */
  lemma ImagePiecesStep(atts: seq<Attachment>, analysis: seq<string>, next: nat, i: nat)
    requires i < |atts|
    ensures ImageCount(atts[..i + 1]) == ImageCount(atts[..i]) + if IsImage(atts[i]) then 1 else 0
    ensures ImagePieces(atts[..i + 1], analysis, next) ==
      var init := ImagePieces(atts[..i], analysis, next);
      var at := next + ImageCount(atts[..i]);
      if !IsImage(atts[i]) then init
      else if init.None? || at >= |analysis| then None
      else Some(init.value + [Seen(analysis[at])])
  {
    assert atts[..i + 1][..i] == atts[..i];
  }

  /** The inner loop over one message's attachments. */
  method AppendImages(atts: seq<Attachment>, analysis: seq<string>, next: nat, combined: string, notes: string)
    returns (ok: bool, combined': string, notes': string)
    requires ImagePieces([], analysis, next).Some?
    ensures ok == ImagePieces(atts, analysis, next).Some?
    ensures ok ==> combined' == combined + Render(ImagePieces(atts, analysis, next).value, false)
    ensures ok ==> notes' == notes + Render(ImagePieces(atts, analysis, next).value, true)
  {
    combined', notes' := combined, notes;
    var at := next;
    ghost var ps: seq<Piece> := [];
    for i := 0 to |atts|
      invariant ImagePieces(atts[..i], analysis, next) == Some(ps)
      invariant combined' == combined + Render(ps, false)
      invariant notes' == notes + Render(ps, true)
      invariant at == next + ImageCount(atts[..i])
    {
      ImagePiecesStep(atts, analysis, next, i);
      if IsImage(atts[i]) {
        if at >= |analysis| {
          ImagePiecesFails(atts, analysis, next, i + 1);
          return false, combined', notes';
        }
        var p := Seen(analysis[at]);
        RenderSnoc(ps, p, false);
        RenderSnoc(ps, p, true);
        AppendAssoc(combined, Render(ps, false), PieceText(p, false));
        AppendAssoc(notes, Render(ps, true), PieceText(p, true));
        combined' := combined' + analysis[at];
        notes' := notes' + (PhotoNote + "\n");
        ps := ps + [p];
        at := at + 1;
      }
    }
    assert atts[..|atts|] == atts;
    ok := true;
  }

  /** Running out of analyses part-way through a message fails the whole
      message. */
  lemma ImagePiecesFails(atts: seq<Attachment>, analysis: seq<string>, next: nat, n: nat)
    requires n <= |atts| && ImagePieces(atts[..n], analysis, next).None?
    ensures ImagePieces(atts, analysis, next).None?
  {
    ImageCountPrefix(atts, n);
  }

  lemma {:induction false} ImageCountPrefix(atts: seq<Attachment>, n: nat)
    requires n <= |atts|
    ensures ImageCount(atts[..n]) <= ImageCount(atts)
    decreases |atts|
  {
    if n < |atts| {
      var init := atts[..|atts| - 1];
      assert atts[..n] == init[..n];
      ImageCountPrefix(init, n);
    } else {
      assert atts[..n] == atts;
    }
  }

  /** One message of the batch: its text piece, then its images. */
  method AppendMessage(m: Messaging, analysis: seq<string>, next: nat, combined: string, notes: string)
    returns (ok: bool, combined': string, notes': string)
    ensures ok == MessagePieces(m, analysis, next).Some?
    ensures ok ==> combined' == combined + Render(MessagePieces(m, analysis, next).value, false)
    ensures ok ==> notes' == notes + Render(MessagePieces(m, analysis, next).value, true)
  {
    combined', notes' := combined, notes;
    var own := TextPieces(m);
    if m.message.Some? && m.message.value.text.Some? {
      var p := Said(m.message.value.text.value);
      RenderSnoc([], p, false);
      RenderSnoc([], p, true);
      assert own == [] + [p];
      combined' := combined' + (m.message.value.text.value + "\n");
      notes' := notes' + (m.message.value.text.value + "\n");
    } else {
      assert combined' == combined + [];
      assert notes' == notes + [];
    }
    assert combined' == combined + Render(own, false) && notes' == notes + Render(own, true);
    if m.message.None? {
      return false, combined', notes';
    }
    ok := true;
    if m.message.value.attachments.Some? {
      var atts := m.message.value.attachments.value;
      ok, combined', notes' := AppendImages(atts, analysis, next, combined', notes');
      if ok {
        ghost var images := ImagePieces(atts, analysis, next).value;
        assert MessagePieces(m, analysis, next) == Some(own + images);
        RenderAppend(own, images, false);
        RenderAppend(own, images, true);
        AppendAssoc(combined, Render(own, false), Render(images, false));
        AppendAssoc(notes, Render(own, true), Render(images, true));
      }
    } else {
      assert MessagePieces(m, analysis, next) == Some(own);
    }
  }

  /** The loop over the sorted batch building combined_message and
      text_messages. */
  method CombineMessages(msgs: seq<QueuedMessage>, analysis: seq<string>) returns (r: Option<(string, string)>)
    ensures r == Combine(msgs, analysis)
  {
    var combined: string := "";
    var notes: string := "";
    var next: nat := 0;
    ghost var ps: seq<Piece> := [];
    for k := 0 to |msgs|
      invariant Pieces(msgs[..k], analysis) == Some(ps)
      invariant combined == Render(ps, false) && notes == Render(ps, true)
      invariant next == ImagesIn(msgs[..k])
    {
      assert msgs[..k + 1][..k] == msgs[..k];
      var m := msgs[k].data;
      var ok;
      ok, combined, notes := AppendMessage(m, analysis, next, combined, notes);
      if !ok {
        PiecesFail(msgs, analysis, k + 1);
        return None;
      }
      var own := MessagePieces(m, analysis, next).value;
      RenderAppend(ps, own, false);
      RenderAppend(ps, own, true);
      ps := ps + own;
      next := next + ImagesOf(m);
    }
    assert msgs[..|msgs|] == msgs;
    r := Some((Strip(combined), notes));
  }

  /** Once a prefix of the batch fails, the whole batch does. */
  lemma PiecesFail(msgs: seq<QueuedMessage>, analysis: seq<string>, n: nat)
    requires n <= |msgs| && Pieces(msgs[..n], analysis).None?
    ensures Pieces(msgs, analysis).None?
  {
    ImagesInPrefix(msgs, n);
    if AllMessages(msgs) {
      forall k | 0 <= k < n
        ensures msgs[..n][k].data.message.Some?
      {
        assert msgs[..n][k] == msgs[k];
      }
    }
  }

  // ---------------------------------------------------------------------
  // Conversation context
  // ---------------------------------------------------------------------

  /** Python's context[-n:]. For a positive n it is the newest min(n, |s|)
      entries in order, so it never exceeds n, ends with the newest entry
      and drops the oldest entries first; context[-0:] is the whole list. */
  function KeepLast<T>(s: seq<T>, n: int): (r: seq<T>)
    ensures n > 0 ==> |r| == (if |s| <= n then |s| else n)
    ensures n > 0 ==> r == s[|s| - |r|..]
    ensures n > 0 && s != [] ==> r != [] && r[|r| - 1] == s[|s| - 1]
    ensures n == 0 ==> r == s
  {
    if n > 0 then (if |s| <= n then s else s[|s| - n..])
    else if n == 0 then s
    else if -n >= |s| then [] else s[-n..]
  }
}
