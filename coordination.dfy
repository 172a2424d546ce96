/** The per-user bookkeeping of the webhook handler in the Redis store: the
    processing lock, the debounce flag that a processing run is scheduled,
    the message queue, the human-override mute, the count of images still
    being analysed, the analyses themselves and the conversation context.

    Each handler is specified twice: as a function from the store's map and
    clock to the new map (what the handler does), and as a method on the
    shared Store that performs the same Redis commands one at a time and is
    proved to reach that map. Timers are not started here: a handler that
    arms one returns its delay, and the timer firing is a later, separate
    call of ProcessUserMessages. */
module Coordination {
  import opened Wrappers
  import opened Text
  import opened Events
  import KV = KeyValue
  import opened RedisStore
  import opened Batch
  import Send = Messaging

  // ---------------------------------------------------------------------
  // Constants and keys
  // ---------------------------------------------------------------------

  /** The lock's time to live (SET ... NX EX 30). */
  const LockTtl: int := 30
  /** How long a heart reaction mutes a user (mute_user's default). */
  const MuteTtl: int := 2 * 60 * 60
  /** The queue's time to live after each push. */
  const QueueTtl: int := 10 * 60
  /** The images_pending counter's time to live. */
  const PendingTtl: int := 60 * 60
  /** The image_analysis list's time to live after each push. */
  const AnalysisTtl: int := 10 * 60
  /** The conversation context's time to live. */
  const ChatTtl: int := 60 * 60 * 24 * 7
  /** GRACE_WINDOW_SECONDS at its default. */
  const GraceWindowSeconds: int := 20
  /** What the scheduled flag outlives the timer by. */
  const ScheduleMargin: int := 5
  /** The delay before a run that found images still pending tries again. */
  const RetrySeconds: int := 3
  /** MAX_HISTORY_LENGTH at its default. */
  const MaxHistoryLength: int := 20
  /** The reaction that hands a conversation over to a human. */
  const Heart: string := "❤"

  function LockKey(user: string): string { "processing_lock:" + user }
  function ScheduledKey(user: string): string { "scheduled:" + user }
  function QueueKey(user: string): string { "message_queue:" + user }
  function PendingKey(user: string): string { "images_pending:" + user }
  function AnalysisKey(user: string): string { "image_analysis:" + user }
  function MuteKey(user: string): string { "mute:" + user }
  function ChatKey(user: string): string { "chat:" + user }
  /** The key process_user_messages deletes after replying: "image_pending:"
      with no s, which is not the counter's key. */
  function StalePendingKey(user: string): string { "image_pending:" + user }

  lemma PrefixesDiffer(p: string, q: string, u: string, i: nat)
    requires i < |p| && i < |q| && p[i] != q[i]
    ensures p + u != q + u
  {
    assert (p + u)[i] == p[i];
    assert (q + u)[i] == q[i];
  }

  /** The counter's key differs from every other key of the same user that
      the handlers write. */
  lemma PendingKeyDistinct(u: string)
    ensures PendingKey(u) != LockKey(u) && PendingKey(u) != ScheduledKey(u)
    ensures PendingKey(u) != QueueKey(u) && PendingKey(u) != AnalysisKey(u)
    ensures PendingKey(u) != MuteKey(u) && PendingKey(u) != ChatKey(u)
    ensures PendingKey(u) != StalePendingKey(u)
  {
    PrefixesDiffer("images_pending:", "processing_lock:", u, 0);
    PrefixesDiffer("images_pending:", "scheduled:", u, 0);
    PrefixesDiffer("images_pending:", "message_queue:", u, 0);
    PrefixesDiffer("images_pending:", "image_analysis:", u, 5);
    PrefixesDiffer("images_pending:", "mute:", u, 0);
    PrefixesDiffer("images_pending:", "chat:", u, 0);
    PrefixesDiffer("images_pending:", "image_pending:", u, 5);
  }

  /** The queue's key differs from the other keys of the same user. */
  lemma QueueKeyDistinct(u: string)
    ensures QueueKey(u) != LockKey(u) && QueueKey(u) != ScheduledKey(u)
    ensures QueueKey(u) != AnalysisKey(u) && QueueKey(u) != MuteKey(u)
    ensures QueueKey(u) != ChatKey(u) && QueueKey(u) != StalePendingKey(u)
  {
    PrefixesDiffer("message_queue:", "processing_lock:", u, 0);
    PrefixesDiffer("message_queue:", "scheduled:", u, 0);
    PrefixesDiffer("message_queue:", "image_analysis:", u, 0);
    PrefixesDiffer("message_queue:", "mute:", u, 1);
    PrefixesDiffer("message_queue:", "chat:", u, 0);
    PrefixesDiffer("message_queue:", "image_pending:", u, 0);
  }

  /** The chat key differs from the other keys of the same user. */
  lemma ChatKeyDistinct(u: string)
    ensures ChatKey(u) != LockKey(u) && ChatKey(u) != ScheduledKey(u)
    ensures ChatKey(u) != AnalysisKey(u) && ChatKey(u) != MuteKey(u)
    ensures ChatKey(u) != StalePendingKey(u)
  {
    PrefixesDiffer("chat:", "processing_lock:", u, 0);
    PrefixesDiffer("chat:", "scheduled:", u, 0);
    PrefixesDiffer("chat:", "image_analysis:", u, 0);
    PrefixesDiffer("chat:", "mute:", u, 0);
    PrefixesDiffer("chat:", "image_pending:", u, 0);
  }

  /** The lock's and the mute flag's keys differ from each other and from
      the scheduled flag's. */
  lemma FlagKeysDistinct(u: string)
    ensures LockKey(u) != MuteKey(u) && LockKey(u) != ScheduledKey(u) && MuteKey(u) != ScheduledKey(u)
    ensures MuteKey(u) != AnalysisKey(u) && MuteKey(u) != StalePendingKey(u)
    ensures LockKey(u) != AnalysisKey(u) && LockKey(u) != StalePendingKey(u)
    ensures ScheduledKey(u) != AnalysisKey(u)
  {
    PrefixesDiffer("processing_lock:", "mute:", u, 0);
    PrefixesDiffer("processing_lock:", "scheduled:", u, 0);
    PrefixesDiffer("mute:", "scheduled:", u, 0);
    PrefixesDiffer("mute:", "image_analysis:", u, 0);
    PrefixesDiffer("mute:", "image_pending:", u, 0);
    PrefixesDiffer("processing_lock:", "image_analysis:", u, 0);
    PrefixesDiffer("processing_lock:", "image_pending:", u, 0);
    PrefixesDiffer("scheduled:", "image_analysis:", u, 0);
  }

  function Ms(seconds: int): int
  {
    seconds * KV.MillisPerSecond
  }

  // ---------------------------------------------------------------------
  // Lock, mute and schedule flag
  // ---------------------------------------------------------------------

  /** acquire_processing_lock: SET processing_lock:<user> 1 NX EX 30. */
  function Acquire(data: KV.Data, user: string, now: int): (r: (KV.Data, bool))
    ensures r.1 <==> !KV.Live(data, LockKey(user), now)
    ensures r.1 ==> KV.Get(r.0, LockKey(user), now) == Some(KV.Text("1"))
    ensures !r.1 ==> r.0 == data
  {
    KV.SetNx(data, LockKey(user), KV.Text("1"), LockTtl, now)
  }

  /** release_processing_lock: DEL processing_lock:<user>, whoever holds it. */
  function Release(data: KV.Data, user: string): (r: KV.Data)
    ensures forall t :: Acquire(r, user, t).1
    ensures forall k, t :: k != LockKey(user) ==> KV.Get(r, k, t) == KV.Get(data, k, t)
  {
    KV.Del(data, LockKey(user))
  }

  /** Acquiring succeeds exactly when the lock is absent or expired, and the
      lock it takes stays held for 30 seconds; a failed attempt changes
      nothing. */
  lemma AcquireSpec(data: KV.Data, user: string, now: int, t: int)
    ensures Acquire(data, user, now).1 <==> !KV.Live(data, LockKey(user), now)
    ensures !Acquire(data, user, now).1 ==> Acquire(data, user, now).0 == data
    ensures Acquire(data, user, now).1 && now <= t < now + Ms(LockTtl) ==>
      KV.Live(Acquire(data, user, now).0, LockKey(user), t)
  {
  }

  /** A second acquisition before the first one's lock is released or
      expires fails; after 30 seconds it succeeds even without a release. */
  lemma LockExcludes(data: KV.Data, user: string, t1: int, t2: int)
    requires Acquire(data, user, t1).1 && t1 <= t2
    ensures t2 < t1 + Ms(LockTtl) <==> !Acquire(Acquire(data, user, t1).0, user, t2).1
  {
  }

  /** After a release the next acquisition succeeds. */
  lemma ReleaseFrees(data: KV.Data, user: string, t: int)
    ensures Acquire(Release(data, user), user, t).1
  {
  }

  /** mute_user: SETEX mute:<user> 7200 1. */
  function Mute(data: KV.Data, user: string, now: int): (r: KV.Data)
    ensures forall t :: now <= t ==> (IsMuted(r, user, t) <==> t < now + Ms(MuteTtl))
  {
    KV.SetEx(data, MuteKey(user), KV.Text("1"), MuteTtl, now)
  }

  /** is_user_muted: EXISTS mute:<user>. */
  predicate IsMuted(data: KV.Data, user: string, now: int)
  {
    KV.Live(data, MuteKey(user), now)
  }

  /** A mute lasts two hours from the instant it is set. */
  lemma MuteLasts(data: KV.Data, user: string, now: int, t: int)
    requires now <= t
    ensures IsMuted(Mute(data, user, now), user, t) <==> t < now + Ms(MuteTtl)
  {
  }

  /** The timer delay schedule_processing picks for a jitter r in [1, 10]. */
  function Grace(jitter: int): int
  {
    GraceWindowSeconds + jitter
  }

  /** schedule_processing: nothing when scheduled:<user> is set; otherwise
      the flag is set for grace + 5 seconds and a timer of grace seconds is
      armed (returned as its delay in milliseconds). */
  function Schedule(data: KV.Data, user: string, now: int, jitter: int): (r: (KV.Data, Option<int>))
    requires 1 <= jitter <= 10
    ensures r.1.None? <==> KV.Live(data, ScheduledKey(user), now)
    ensures r.1.None? ==> r.0 == data
    ensures r.1.Some? ==>
      && Ms(GraceWindowSeconds + 1) <= r.1.value <= Ms(GraceWindowSeconds + 10)
      && KV.Live(r.0, ScheduledKey(user), now) && KV.Live(r.0, ScheduledKey(user), now + r.1.value)
  {
    if KV.Get(data, ScheduledKey(user), now).Some? then (data, None)
    else (KV.SetEx(data, ScheduledKey(user), KV.Text("1"), Grace(jitter) + ScheduleMargin, now), Some(Ms(Grace(jitter))))
  }

  /** An armed timer fires 21 to 30 seconds later, and the flag is still
      set when it does, so no second timer can be armed in between; with
      the flag set, scheduling changes nothing. */
  lemma ScheduleSpec(data: KV.Data, user: string, now: int, jitter: int, t: int)
    requires 1 <= jitter <= 10
    ensures KV.Live(data, ScheduledKey(user), now) ==> Schedule(data, user, now, jitter) == (data, None)
    ensures !KV.Live(data, ScheduledKey(user), now) ==>
      var (d, timer) := Schedule(data, user, now, jitter);
      && timer.Some? && Ms(GraceWindowSeconds + 1) <= timer.value <= Ms(GraceWindowSeconds + 10)
      && (now <= t <= now + timer.value ==> KV.Live(d, ScheduledKey(user), t))
      && (now <= t <= now + timer.value ==> Schedule(d, user, t, jitter) == (d, None))
  {
  }

  // ---------------------------------------------------------------------
  // The queue and the conversation context
  // ---------------------------------------------------------------------

  /** get_queued_messages: the entries of message_queue:<user>, newest
      first ([] when the key is absent). */
  function Queued(data: KV.Data, user: string, now: int): seq<QueuedMessage>
  {
    KV.QueueOf(KV.Get(data, QueueKey(user), now))
  }

  /** queue_user_message: nothing for a muted user; otherwise the entry is
      pushed at the head of the queue, the queue lives ten more minutes and
      processing is scheduled. */
  function Enqueue(data: KV.Data, user: string, m: Messaging, hasImage: bool, now: int, jitter: int): (r: (KV.Data, Option<int>))
    requires 1 <= jitter <= 10
    ensures IsMuted(data, user, now) ==> r == (data, None)
    ensures !IsMuted(data, user, now) ==> KV.Live(r.0, ScheduledKey(user), now)
    ensures r.1.Some? ==> Ms(GraceWindowSeconds + 1) <= r.1.value <= Ms(GraceWindowSeconds + 10)
  {
    if IsMuted(data, user, now) then (data, None)
    else
      var pushed := KV.LPush(data, QueueKey(user), QueuedMessage(now, m, hasImage), now);
      Schedule(KV.Expire(pushed, QueueKey(user), QueueTtl, now), user, now, jitter)
  }

  /** A muted user's message is dropped. Otherwise exactly one entry,
      stamped with the current instant, is added at the head of the queue,
      the queue lives for ten minutes, and a processing run is scheduled
      (or already was); no key but the queue and the scheduled flag
      changes. */
  lemma EnqueueSpec(data: KV.Data, user: string, m: Messaging, hasImage: bool, now: int, jitter: int, k: string, t: int)
    requires 1 <= jitter <= 10
    ensures IsMuted(data, user, now) ==> Enqueue(data, user, m, hasImage, now, jitter) == (data, None)
    ensures !IsMuted(data, user, now) ==>
      var d := Enqueue(data, user, m, hasImage, now, jitter).0;
      && Queued(d, user, now) == [QueuedMessage(now, m, hasImage)] + Queued(data, user, now)
      && (now <= t < now + Ms(QueueTtl) ==> KV.Live(d, QueueKey(user), t))
      && KV.Live(d, ScheduledKey(user), now)
    ensures k != QueueKey(user) && k != ScheduledKey(user) ==>
      KV.Get(Enqueue(data, user, m, hasImage, now, jitter).0, k, t) == KV.Get(data, k, t)
  {
    if !IsMuted(data, user, now) {
      QueueKeyDistinct(user);
      var pushed := KV.LPush(data, QueueKey(user), QueuedMessage(now, m, hasImage), now);
      var expiring := KV.Expire(pushed, QueueKey(user), QueueTtl, now);
      assert KV.Live(expiring, QueueKey(user), now);
      KV.GetAfterSetEx(expiring, ScheduledKey(user), KV.Text("1"), Grace(jitter) + ScheduleMargin, now, QueueKey(user), t);
      KV.GetAfterSetEx(expiring, ScheduledKey(user), KV.Text("1"), Grace(jitter) + ScheduleMargin, now, QueueKey(user), now);
      if k != QueueKey(user) && k != ScheduledKey(user) {
        assert KV.Get(expiring, k, t) == KV.Get(data, k, t);
        KV.GetAfterSetEx(expiring, ScheduledKey(user), KV.Text("1"), Grace(jitter) + ScheduleMargin, now, k, t);
      }
    }
  }

  /** save_convo_context: the stored history followed by the new entry,
      cut to its last MAX_HISTORY_LENGTH entries, stored for a week. */
  function SaveContext(data: KV.Data, user: string, entry: ChatEntry, now: int): (r: KV.Data)
    ensures var h := History(r, user, now); 1 <= |h| <= MaxHistoryLength && h[|h| - 1] == entry
  {
    var context := KV.HistoryOf(KV.Get(data, ChatKey(user), now));
    KV.SetEx(data, ChatKey(user), KV.History(KeepLast(context + [entry], MaxHistoryLength)), ChatTtl, now)
  }

  function History(data: KV.Data, user: string, now: int): seq<ChatEntry>
  {
    KV.HistoryOf(KV.Get(data, ChatKey(user), now))
  }

  /** After a save the history ends with the new entry, holds at most
      MAX_HISTORY_LENGTH entries, is the newest entries of the old history
      followed by the new one, and no other key changes. */
  lemma SaveContextSpec(data: KV.Data, user: string, entry: ChatEntry, now: int, k: string, t: int)
    ensures var h := History(SaveContext(data, user, entry, now), user, now);
      && 1 <= |h| <= MaxHistoryLength && h[|h| - 1] == entry
      && |h| == (if |History(data, user, now)| < MaxHistoryLength then |History(data, user, now)| + 1 else MaxHistoryLength)
      && h == (History(data, user, now) + [entry])[|History(data, user, now)| + 1 - |h|..]
    ensures k != ChatKey(user) ==> KV.Get(SaveContext(data, user, entry, now), k, t) == KV.Get(data, k, t)
  {
    var before := History(data, user, now);
    var kept := KeepLast(before + [entry], MaxHistoryLength);
    SavedHistory(data, user, entry, now);
    assert |kept| == (if |before| < MaxHistoryLength then |before| + 1 else MaxHistoryLength);
    if k != ChatKey(user) {
      KV.GetAfterSetEx(data, ChatKey(user), KV.History(kept), ChatTtl, now, k, t);
    }
  }

  /** The history a save stores is the kept tail of the old one and the
      new entry. */
  lemma SavedHistory(data: KV.Data, user: string, entry: ChatEntry, now: int)
    ensures History(SaveContext(data, user, entry, now), user, now)
         == KeepLast(History(data, user, now) + [entry], MaxHistoryLength)
  {
    var kept := KeepLast(History(data, user, now) + [entry], MaxHistoryLength);
    KV.GetAfterSetEx(data, ChatKey(user), KV.History(kept), ChatTtl, now, ChatKey(user), now);
  }

  // ---------------------------------------------------------------------
  // The webhook
  // ---------------------------------------------------------------------

  /** The line pushed onto image_analysis:<user> for the image at 1-based
      attachment position i. */
  function AnalysisLine(i: nat, reply: string): string
  {
    "Εικόνα " + NatToString(i) + ": " + reply + "\n"
  }

  /** The analyses that succeeded (outcome present) for image attachments,
      as their lines, in attachment order. */
  function SuccessLines(atts: seq<Attachment>, outcomes: seq<Option<string>>): (r: seq<string>)
    requires |outcomes| == |atts|
    ensures |r| <= ImageCount(atts)
  {
    if atts == [] then []
    else
      var n := |atts| - 1;
      SuccessLines(atts[..n], outcomes[..n]) +
      if IsImage(atts[n]) && outcomes[n].Some? then [AnalysisLine(n + 1, outcomes[n].value)] else []
  }

  /** The per-image part of the webhook: for each image whose analysis
      succeeded, RPUSH its line, EXPIRE the list 600 and DECR the counter;
      a failed analysis is skipped and leaves the counter alone. */
  function RecordAnalyses(data: KV.Data, user: string, atts: seq<Attachment>, outcomes: seq<Option<string>>, now: int): (r: KV.Data)
    requires |outcomes| == |atts|
    ensures AnalysisLines(r, user, now) == AnalysisLines(data, user, now) + SuccessLines(atts, outcomes)
    ensures Pending(r, user, now) == Pending(data, user, now) - |SuccessLines(atts, outcomes)|
  {
    if atts == [] then data
    else
      var n := |atts| - 1;
      var d := RecordAnalyses(data, user, atts[..n], outcomes[..n], now);
      var before := SuccessLines(atts[..n], outcomes[..n]);
      if IsImage(atts[n]) && outcomes[n].Some? then
        var line := AnalysisLine(n + 1, outcomes[n].value);
        RecordOne(d, user, line, now, AnalysisKey(user), now);
        AppendAssoc(AnalysisLines(data, user, now), before, [line]);
        var pushed := KV.RPush(d, AnalysisKey(user), line, now);
        KV.Decr(KV.Expire(pushed, AnalysisKey(user), AnalysisTtl, now), PendingKey(user), now)
      else
        assert SuccessLines(atts, outcomes) == before + [];
        d
  }

  /** The counter read as the webhook and the processing run read it:
      int(GET images_pending:<user> or "0"). */
  function Pending(data: KV.Data, user: string, now: int): int
  {
    KV.CountOf(KV.Get(data, PendingKey(user), now))
  }

  function AnalysisLines(data: KV.Data, user: string, now: int): seq<string>
  {
    KV.LinesOf(KV.Get(data, AnalysisKey(user), now))
  }

  /** One recorded analysis: the list gains the line, the counter goes down
      by one, nothing else changes. */
  lemma RecordOne(d: KV.Data, user: string, line: string, now: int, k: string, t: int)
    ensures var r := KV.Decr(KV.Expire(KV.RPush(d, AnalysisKey(user), line, now), AnalysisKey(user), AnalysisTtl, now), PendingKey(user), now);
      && AnalysisLines(r, user, now) == AnalysisLines(d, user, now) + [line]
      && Pending(r, user, now) == Pending(d, user, now) - 1
      && (k != AnalysisKey(user) && k != PendingKey(user) ==> KV.Get(r, k, t) == KV.Get(d, k, t))
  {
    PendingKeyDistinct(user);
    var pushed := KV.RPush(d, AnalysisKey(user), line, now);
    var expiring := KV.Expire(pushed, AnalysisKey(user), AnalysisTtl, now);
    assert AnalysisLines(expiring, user, now) == AnalysisLines(d, user, now) + [line];
    assert Pending(expiring, user, now) == Pending(d, user, now);
  }

  /** Recording the analyses appends the successful lines in order, lowers
      the counter once per success and touches no key but the list and
      the counter. */
  lemma {:induction false} RecordAnalysesSpec(data: KV.Data, user: string, atts: seq<Attachment>, outcomes: seq<Option<string>>, now: int, k: string, t: int)
    requires |outcomes| == |atts|
    ensures var d := RecordAnalyses(data, user, atts, outcomes, now);
      && AnalysisLines(d, user, now) == AnalysisLines(data, user, now) + SuccessLines(atts, outcomes)
      && Pending(d, user, now) == Pending(data, user, now) - |SuccessLines(atts, outcomes)|
    ensures k != AnalysisKey(user) && k != PendingKey(user) ==>
      KV.Get(RecordAnalyses(data, user, atts, outcomes, now), k, t) == KV.Get(data, k, t)
  {
    if atts != [] {
      var n := |atts| - 1;
      RecordAnalysesSpec(data, user, atts[..n], outcomes[..n], now, k, t);
      var d := RecordAnalyses(data, user, atts[..n], outcomes[..n], now);
      var before := SuccessLines(atts[..n], outcomes[..n]);
      if IsImage(atts[n]) && outcomes[n].Some? {
        var line := AnalysisLine(n + 1, outcomes[n].value);
        RecordOne(d, user, line, now, k, t);
        assert SuccessLines(atts, outcomes) == before + [line];
        AppendAssoc(AnalysisLines(data, user, now), before, [line]);
      } else {
        assert SuccessLines(atts, outcomes) == before + [];
        assert before + [] == before;
      }
    }
  }

  /** The webhook's image branch: the counter grows by the number of image
      attachments and is stored for an hour, then the analyses are recorded. */
  function ImageIntake(data: KV.Data, user: string, atts: seq<Attachment>, outcomes: seq<Option<string>>, now: int): (r: KV.Data)
    requires |outcomes| == |atts|
    ensures Pending(r, user, now) == Pending(data, user, now) + ImageCount(atts) - |SuccessLines(atts, outcomes)|
    ensures AnalysisLines(r, user, now) == AnalysisLines(data, user, now) + SuccessLines(atts, outcomes)
  {
    PendingKeyDistinct(user);
    var counted := KV.SetEx(data, PendingKey(user), KV.Count(Pending(data, user, now) + ImageCount(atts)), PendingTtl, now);
    RecordAnalyses(counted, user, atts, outcomes, now)
  }

  /** After the intake the counter is the old count plus the images that
      have not been analysed successfully; so an image whose analysis fails
      keeps the counter above zero until the key expires an hour later.
      No key but the counter and the analyses list changes. */
  lemma ImageIntakeSpec(data: KV.Data, user: string, atts: seq<Attachment>, outcomes: seq<Option<string>>, now: int, k: string, t: int)
    requires |outcomes| == |atts|
    ensures var d := ImageIntake(data, user, atts, outcomes, now);
      && Pending(d, user, now) == Pending(data, user, now) + ImageCount(atts) - |SuccessLines(atts, outcomes)|
      && AnalysisLines(d, user, now) == AnalysisLines(data, user, now) + SuccessLines(atts, outcomes)
    ensures k != AnalysisKey(user) && k != PendingKey(user) ==>
      KV.Get(ImageIntake(data, user, atts, outcomes, now), k, t) == KV.Get(data, k, t)
  {
    var counted := KV.SetEx(data, PendingKey(user), KV.Count(Pending(data, user, now) + ImageCount(atts)), PendingTtl, now);
    PendingKeyDistinct(user);
    RecordAnalysesSpec(counted, user, atts, outcomes, now, k, t);
    KV.GetAfterSetEx(data, PendingKey(user), KV.Count(Pending(data, user, now) + ImageCount(atts)), PendingTtl, now, k, t);
  }

  /** The webhook's answer. */
  datatype Status = Received | InvalidPayload

  /** The heart-reaction override for the conversation's other party: mute
      it for two hours, drop its queue and its scheduled flag. */
  function HandOver(data: KV.Data, recipient: string, now: int): KV.Data
  {
    KV.Del(KV.Del(Mute(data, recipient, now), QueueKey(recipient)), ScheduledKey(recipient))
  }

  /** webhook for one messaging event. Only admin senders are handled;
      a heart from the reaction bot hands the conversation over; any other
      event records its image analyses (outcomes holds each attachment's
      analysis, None when it failed) and is queued. The result is the new
      map, the answer and the delay of the timer armed, if any. */
  function Webhook(data: KV.Data, ev: Events.Messaging, admins: set<string>, bot: string,
                   outcomes: seq<Option<string>>, now: int, jitter: int): (r: (KV.Data, Status, Option<int>))
    requires 1 <= jitter <= 10
    requires ev.message.Some? && ev.message.value.attachments.Some? ==> |outcomes| == |ev.message.value.attachments.value|
    ensures r.1 == InvalidPayload <==> ev.sender !in admins
    ensures r.2.Some? ==> Ms(GraceWindowSeconds + 1) <= r.2.value <= Ms(GraceWindowSeconds + 10)
  {
    if ev.sender !in admins then (data, InvalidPayload, None)
    else if ev.reaction.Some? && ev.sender == bot && ev.reaction.value.emoji == Some(Heart) then
      (HandOver(data, ev.recipient, now), Received, None)
    else
      var withImages := ev.message.Some? && ev.message.value.attachments.Some?;
      var d := if withImages then ImageIntake(data, ev.sender, ev.message.value.attachments.value, outcomes, now) else data;
      var hasImage := withImages && ImageCount(ev.message.value.attachments.value) > 0;
      var (d', timer) := Enqueue(d, ev.sender, ev, hasImage, now, jitter);
      (d', Received, timer)
  }

  /** A heart reaction from the bot mutes the recipient for two hours,
      empties its queue, clears its scheduled flag, queues nothing and arms
      no timer; while the mute lasts, the recipient's messages are dropped. */
  lemma HeartHandsOver(data: KV.Data, ev: Events.Messaging, admins: set<string>, bot: string,
                       outcomes: seq<Option<string>>, now: int, jitter: int, m: Events.Messaging, t: int)
    requires 1 <= jitter <= 10
    requires ev.message.Some? && ev.message.value.attachments.Some? ==> |outcomes| == |ev.message.value.attachments.value|
    requires ev.sender in admins && ev.sender == bot && ev.reaction == Some(Reaction(Some(Heart)))
    requires now <= t < now + Ms(MuteTtl)
    ensures var (d, status, timer) := Webhook(data, ev, admins, bot, outcomes, now, jitter);
      && status == Received && timer.None?
      && IsMuted(d, ev.recipient, t)
      && Queued(d, ev.recipient, t) == [] && !KV.Live(d, ScheduledKey(ev.recipient), t)
      && Enqueue(d, ev.recipient, m, false, t, jitter) == (d, None)
  {
    FlagKeysDistinct(ev.recipient);
    QueueKeyDistinct(ev.recipient);
  }

  /** An event from a sender outside the admin set changes nothing. */
  lemma OthersIgnored(data: KV.Data, ev: Events.Messaging, admins: set<string>, bot: string,
                      outcomes: seq<Option<string>>, now: int, jitter: int)
    requires 1 <= jitter <= 10
    requires ev.message.Some? && ev.message.value.attachments.Some? ==> |outcomes| == |ev.message.value.attachments.value|
    requires ev.sender !in admins
    ensures Webhook(data, ev, admins, bot, outcomes, now, jitter) == (data, InvalidPayload, None)
  {
  }

  /** The attachments of an event ([] when it has none) and the analysis
      outcomes that go with them. */
  function EventAttachments(ev: Events.Messaging): seq<Attachment>
  {
    if ev.message.Some? && ev.message.value.attachments.Some? then ev.message.value.attachments.value else []
  }

  /** Any other event from an admin: its images are added to
      images_pending:<sender>, which then drops once per successful
      analysis; the successful lines join image_analysis:<sender>; the
      event is queued at the head of the sender's queue, flagged as
      carrying an image when it has one, unless the sender is muted, in
      which case the queue stays as it was and no timer is armed. No other
      key changes. */
  lemma WebhookQueues(data: KV.Data, ev: Events.Messaging, admins: set<string>, bot: string,
                      outcomes: seq<Option<string>>, now: int, jitter: int, k: string, t: int)
    requires 1 <= jitter <= 10
    requires ev.message.Some? && ev.message.value.attachments.Some? ==> |outcomes| == |ev.message.value.attachments.value|
    requires ev.sender in admins
    requires !(ev.reaction.Some? && ev.sender == bot && ev.reaction.value.emoji == Some(Heart))
    ensures var atts := EventAttachments(ev);
      var outs := if atts == [] then [] else outcomes;
      var (d, status, timer) := Webhook(data, ev, admins, bot, outcomes, now, jitter);
      && status == Received
      && Pending(d, ev.sender, now) == Pending(data, ev.sender, now) + ImageCount(atts) - |SuccessLines(atts, outs)|
      && AnalysisLines(d, ev.sender, now) == AnalysisLines(data, ev.sender, now) + SuccessLines(atts, outs)
      && (IsMuted(data, ev.sender, now) ==> Queued(d, ev.sender, now) == Queued(data, ev.sender, now) && timer.None?)
      && (!IsMuted(data, ev.sender, now) ==>
            Queued(d, ev.sender, now) == [QueuedMessage(now, ev, ImageCount(atts) > 0)] + Queued(data, ev.sender, now)
            && KV.Live(d, ScheduledKey(ev.sender), now))
    ensures k != PendingKey(ev.sender) && k != AnalysisKey(ev.sender) && k != QueueKey(ev.sender) && k != ScheduledKey(ev.sender) ==>
      KV.Get(Webhook(data, ev, admins, bot, outcomes, now, jitter).0, k, t) == KV.Get(data, k, t)
  {
    var user := ev.sender;
    var atts := EventAttachments(ev);
    var outs := if atts == [] then [] else outcomes;
    var withImages := ev.message.Some? && ev.message.value.attachments.Some?;
    var hasImage := withImages && ImageCount(atts) > 0;
    assert hasImage == (ImageCount(atts) > 0);
    var d := if withImages then ImageIntake(data, user, atts, outcomes, now) else data;
    assert |outs| == |atts|;
    assert withImages ==> outs == outcomes;
    PendingKeyDistinct(user);
    QueueKeyDistinct(user);
    FlagKeysDistinct(user);
    if withImages {
      ImageIntakeSpec(data, user, atts, outcomes, now, MuteKey(user), now);
      ImageIntakeSpec(data, user, atts, outcomes, now, QueueKey(user), now);
      ImageIntakeSpec(data, user, atts, outcomes, now, k, t);
    }
    assert IsMuted(d, user, now) == IsMuted(data, user, now);
    assert Queued(d, user, now) == Queued(data, user, now);
    EnqueueSpec(d, user, ev, hasImage, now, jitter, PendingKey(user), now);
    EnqueueSpec(d, user, ev, hasImage, now, jitter, AnalysisKey(user), now);
    EnqueueSpec(d, user, ev, hasImage, now, jitter, k, t);
  }

  // ---------------------------------------------------------------------
  // The processing run
  // ---------------------------------------------------------------------

  /** How a processing run ended. */
  datatype Outcome =
    | Busy                        // the lock was held by another run
    | Silenced                    // the user is muted
    | Deferred(retryMs: int)      // images still being analysed: retry later
    | Idle                        // nothing queued
    | Failed                      // combining the batch raised
    | Replied(sent: seq<string>)  // the messages sent, in order

  /** The tail of a run that has a combined message and the reply: save
      the user's turn, drop the analyses (get_assistant_reply's clean-up),
      save the assistant's turn, delete image_pending:<user> and clear the
      queue. */
  function Answer(data: KV.Data, user: string, combined: string, reply: string, now: int): KV.Data
  {
    var asked := SaveContext(data, user, ChatEntry("user", combined), now);
    var cleaned := KV.Del(asked, AnalysisKey(user));
    var answered := SaveContext(cleaned, user, ChatEntry("assistant", reply), now);
    KV.Del(KV.Del(answered, StalePendingKey(user)), QueueKey(user))
  }

  /** The body of process_user_messages' try block, run with the lock
      held. reply stands for get_assistant_reply's answer. */
  function Batched(data: KV.Data, user: string, now: int, reply: string): (r: (KV.Data, Outcome))
    ensures !KV.Live(r.0, ScheduledKey(user), now)
    ensures r.1.Deferred? || r.1.Idle? || r.1.Failed? || r.1.Replied?
    ensures r.1.Replied? ==>
      r.1.sent == Send.Outgoing(reply) && Queued(r.0, user, now) == [] && AnalysisLines(r.0, user, now) == []
  {
    var unflagged := KV.Del(data, ScheduledKey(user));
    if Pending(unflagged, user, now) > 0 then (unflagged, Deferred(Ms(RetrySeconds)))
    else
      var msgs := Queued(unflagged, user, now);
      if msgs == [] then (unflagged, Idle)
      else
        var combined := Combine(SortQueue(msgs), AnalysisLines(unflagged, user, now));
        if combined.None? then (unflagged, Failed)
        else
          ChatKeyDistinct(user);
          FlagKeysDistinct(user);
          QueueKeyDistinct(user);
          AnswerClears(unflagged, user, combined.value.0, reply, now);
          AnswerFrame(unflagged, user, combined.value.0, reply, now, ScheduledKey(user), now);
          (Answer(unflagged, user, combined.value.0, reply, now), Replied(Send.Outgoing(reply)))
  }

  /** process_user_messages: take the lock or stop; release it at once for
      a muted user; otherwise run the batch and release the lock whatever
      happened (the finally clause). */
  function Process(data: KV.Data, user: string, now: int, reply: string): (r: (KV.Data, Outcome))
    ensures r.1 == Busy <==> KV.Live(data, LockKey(user), now)
    ensures r.1 == Busy ==> r.0 == data
    ensures r.1 != Busy ==> LockKey(user) !in r.0
  {
    var (locked, ok) := Acquire(data, user, now);
    if !ok then (data, Busy)
    else if IsMuted(locked, user, now) then (Release(locked, user), Silenced)
    else
      var (d, outcome) := Batched(locked, user, now, reply);
      (Release(d, user), outcome)
  }

  /** Without the lock a run changes nothing. */
  lemma ProcessNeedsLock(data: KV.Data, user: string, now: int, reply: string)
    requires KV.Live(data, LockKey(user), now)
    ensures Process(data, user, now, reply) == (data, Busy)
  {
  }

  /** A run that takes the lock releases it on every path. */
  lemma ProcessReleasesLock(data: KV.Data, user: string, now: int, reply: string)
    requires !KV.Live(data, LockKey(user), now)
    ensures Process(data, user, now, reply).1 != Busy
    ensures LockKey(user) !in Process(data, user, now, reply).0
  {
  }

  /** Taking the lock touches no other key. */
  lemma LockedView(data: KV.Data, user: string, now: int, k: string, t: int)
    requires k != LockKey(user)
    ensures KV.Get(Acquire(data, user, now).0, k, t) == KV.Get(data, k, t)
  {
    if !KV.Live(data, LockKey(user), now) {
      KV.GetAfterSetEx(data, LockKey(user), KV.Text("1"), LockTtl, now, k, t);
    }
  }

  /** The store a run's batch starts from: the lock taken and the
      scheduled flag cleared, every other key as it was. */
  lemma UnflaggedView(data: KV.Data, user: string, now: int, k: string, t: int)
    requires k != LockKey(user) && k != ScheduledKey(user)
    ensures KV.Get(KV.Del(Acquire(data, user, now).0, ScheduledKey(user)), k, t) == KV.Get(data, k, t)
  {
    LockedView(data, user, now, k, t);
    KV.GetAfterDel(Acquire(data, user, now).0, ScheduledKey(user), k, t);
  }

  /** A muted user's run only takes and releases the lock. */
  lemma ProcessMuted(data: KV.Data, user: string, now: int, reply: string, k: string, t: int)
    requires !KV.Live(data, LockKey(user), now) && IsMuted(data, user, now)
    requires k != LockKey(user)
    ensures Process(data, user, now, reply).1 == Silenced
    ensures KV.Get(Process(data, user, now, reply).0, k, t) == KV.Get(data, k, t)
  {
    FlagKeysDistinct(user);
    var locked := Acquire(data, user, now).0;
    LockedView(data, user, now, MuteKey(user), now);
    assert IsMuted(locked, user, now);
    assert Process(data, user, now, reply) == (Release(locked, user), Silenced);
    LockedView(data, user, now, k, t);
    KV.GetAfterDel(locked, LockKey(user), k, t);
  }

  /** While images are pending, a run clears the scheduled flag and asks
      for a retry in 3 seconds, leaving the queue, the analyses and the
      conversation as they were. */
  lemma ProcessDefers(data: KV.Data, user: string, now: int, reply: string)
    requires !KV.Live(data, LockKey(user), now) && !IsMuted(data, user, now)
    requires Pending(data, user, now) > 0
    ensures var (d, outcome) := Process(data, user, now, reply);
      && outcome == Deferred(3000)
      && !KV.Live(d, ScheduledKey(user), now)
      && Queued(d, user, now) == Queued(data, user, now)
      && AnalysisLines(d, user, now) == AnalysisLines(data, user, now)
      && History(d, user, now) == History(data, user, now)
  {
    FlagKeysDistinct(user);
    PendingKeyDistinct(user);
    QueueKeyDistinct(user);
    ChatKeyDistinct(user);
    var locked := Acquire(data, user, now).0;
    var unflagged := KV.Del(locked, ScheduledKey(user));
    LockedView(data, user, now, MuteKey(user), now);
    UnflaggedView(data, user, now, PendingKey(user), now);
    assert Process(data, user, now, reply) == (Release(unflagged, user), Deferred(3000));
    UnflaggedView(data, user, now, QueueKey(user), now);
    UnflaggedView(data, user, now, AnalysisKey(user), now);
    UnflaggedView(data, user, now, ChatKey(user), now);
    KV.GetAfterDel(unflagged, LockKey(user), QueueKey(user), now);
    KV.GetAfterDel(unflagged, LockKey(user), AnalysisKey(user), now);
    KV.GetAfterDel(unflagged, LockKey(user), ChatKey(user), now);
    KV.GetAfterDel(unflagged, LockKey(user), ScheduledKey(user), now);
  }

  /** Answering touches only the conversation, the analyses,
      image_pending:<user> and the queue. */
  lemma AnswerFrame(data: KV.Data, user: string, combined: string, reply: string, now: int, k: string, t: int)
    requires k != ChatKey(user) && k != AnalysisKey(user) && k != StalePendingKey(user) && k != QueueKey(user)
    ensures KV.Get(Answer(data, user, combined, reply, now), k, t) == KV.Get(data, k, t)
  {
    var asked := SaveContext(data, user, ChatEntry("user", combined), now);
    var cleaned := KV.Del(asked, AnalysisKey(user));
    var answered := SaveContext(cleaned, user, ChatEntry("assistant", reply), now);
    SaveContextSpec(data, user, ChatEntry("user", combined), now, k, t);
    KV.GetAfterDel(asked, AnalysisKey(user), k, t);
    SaveContextSpec(cleaned, user, ChatEntry("assistant", reply), now, k, t);
    KV.GetAfterDel(answered, StalePendingKey(user), k, t);
    KV.GetAfterDel(KV.Del(answered, StalePendingKey(user)), QueueKey(user), k, t);
  }

  /** The batch touches only the scheduled flag, the conversation, the
      analyses, image_pending:<user> and the queue. */
  lemma BatchedFrame(data: KV.Data, user: string, now: int, reply: string, k: string, t: int)
    requires k != ScheduledKey(user) && k != ChatKey(user) && k != AnalysisKey(user)
    requires k != StalePendingKey(user) && k != QueueKey(user)
    ensures KV.Get(Batched(data, user, now, reply).0, k, t) == KV.Get(data, k, t)
  {
    var unflagged := KV.Del(data, ScheduledKey(user));
    KV.GetAfterDel(data, ScheduledKey(user), k, t);
    var combined := Combine(SortQueue(Queued(unflagged, user, now)), AnalysisLines(unflagged, user, now));
    if Pending(unflagged, user, now) <= 0 && Queued(unflagged, user, now) != [] && combined.Some? {
      assert Batched(data, user, now, reply).0 == Answer(unflagged, user, combined.value.0, reply, now);
      AnswerFrame(unflagged, user, combined.value.0, reply, now, k, t);
    } else {
      assert Batched(data, user, now, reply).0 == unflagged;
    }
  }

  /** Only the webhook moves the counter: whatever a run does, it leaves
      images_pending:<user> as it found it (it deletes image_pending:<user>,
      a different key). */
  lemma ProcessKeepsPendingCounter(data: KV.Data, user: string, now: int, reply: string, t: int)
    ensures KV.Get(Process(data, user, now, reply).0, PendingKey(user), t) == KV.Get(data, PendingKey(user), t)
  {
    PendingKeyDistinct(user);
    var k := PendingKey(user);
    if !KV.Live(data, LockKey(user), now) {
      var locked := Acquire(data, user, now).0;
      LockedView(data, user, now, k, t);
      if IsMuted(locked, user, now) {
        KV.GetAfterDel(locked, LockKey(user), k, t);
      } else {
        var d := Batched(locked, user, now, reply).0;
        assert Process(data, user, now, reply).0 == Release(d, user);
        BatchedFrame(locked, user, now, reply, k, t);
        KV.GetAfterDel(d, LockKey(user), k, t);
      }
    }
  }

  /** A batch that cannot be combined (a queued event without "message",
      or fewer analyses than images) ends the run with the queue kept and
      nothing said. */
  lemma ProcessFailureKeepsQueue(data: KV.Data, user: string, now: int, reply: string)
    requires !KV.Live(data, LockKey(user), now) && !IsMuted(data, user, now) && Pending(data, user, now) <= 0
    requires Queued(data, user, now) != []
    requires var msgs := SortQueue(Queued(data, user, now));
      !AllMessages(msgs) || ImagesIn(msgs) > |AnalysisLines(data, user, now)|
    ensures var (d, outcome) := Process(data, user, now, reply);
      outcome == Failed && Queued(d, user, now) == Queued(data, user, now) && History(d, user, now) == History(data, user, now)
  {
    FlagKeysDistinct(user);
    PendingKeyDistinct(user);
    QueueKeyDistinct(user);
    ChatKeyDistinct(user);
    var locked := Acquire(data, user, now).0;
    var unflagged := KV.Del(locked, ScheduledKey(user));
    LockedView(data, user, now, MuteKey(user), now);
    UnflaggedView(data, user, now, PendingKey(user), now);
    UnflaggedView(data, user, now, QueueKey(user), now);
    UnflaggedView(data, user, now, AnalysisKey(user), now);
    UnflaggedView(data, user, now, ChatKey(user), now);
    var msgs := SortQueue(Queued(data, user, now));
    assert Combine(msgs, AnalysisLines(unflagged, user, now)).None?;
    assert Batched(locked, user, now, reply) == (unflagged, Failed);
    KV.GetAfterDel(unflagged, LockKey(user), QueueKey(user), now);
    KV.GetAfterDel(unflagged, LockKey(user), ChatKey(user), now);
  }

  /** A save leaves the new entry last. */
  lemma SaveContextLast(data: KV.Data, user: string, entry: ChatEntry, now: int)
    ensures var h := History(SaveContext(data, user, entry, now), user, now);
      |h| >= 1 && h[|h| - 1] == entry
  {
    SaveContextSpec(data, user, entry, now, ChatKey(user), now);
  }

  /** Deleting another key leaves the history as it was. */
  lemma HistoryAfterDel(data: KV.Data, key: string, user: string, now: int)
    requires key != ChatKey(user)
    ensures History(KV.Del(data, key), user, now) == History(data, user, now)
  {
    KV.GetAfterDel(data, key, ChatKey(user), now);
  }

  /** A save after a history ending with prev leaves prev just before the
      new entry. */
  lemma SaveContextFollows(data: KV.Data, user: string, prev: ChatEntry, entry: ChatEntry, now: int)
    requires var before := History(data, user, now); |before| >= 1 && before[|before| - 1] == prev
    ensures var h := History(SaveContext(data, user, entry, now), user, now);
      |h| >= 2 && h[|h| - 2] == prev && h[|h| - 1] == entry
  {
    var before := History(data, user, now);
    SaveContextSpec(data, user, entry, now, ChatKey(user), now);
    var h := History(SaveContext(data, user, entry, now), user, now);
    var whole := before + [entry];
    assert h == whole[|whole| - |h|..];
    assert h[|h| - 2] == whole[|whole| - 2];
  }

  /** Answering ends the conversation with the user's combined turn and
      then the reply. */
  lemma AnswerHistory(data: KV.Data, user: string, combined: string, reply: string, now: int)
    ensures var h := History(Answer(data, user, combined, reply, now), user, now);
      |h| >= 2 && h[|h| - 2] == ChatEntry("user", combined) && h[|h| - 1] == ChatEntry("assistant", reply)
  {
    var asked := SaveContext(data, user, ChatEntry("user", combined), now);
    var cleaned := KV.Del(asked, AnalysisKey(user));
    var answered := SaveContext(cleaned, user, ChatEntry("assistant", reply), now);
    var unstale := KV.Del(answered, StalePendingKey(user));
    ChatKeyDistinct(user);
    QueueKeyDistinct(user);
    SaveContextLast(data, user, ChatEntry("user", combined), now);
    HistoryAfterDel(asked, AnalysisKey(user), user, now);
    SaveContextFollows(cleaned, user, ChatEntry("user", combined), ChatEntry("assistant", reply), now);
    HistoryAfterDel(answered, StalePendingKey(user), user, now);
    HistoryAfterDel(unstale, QueueKey(user), user, now);
  }

  /** Answering clears the queue and the analyses. */
  lemma AnswerClears(data: KV.Data, user: string, combined: string, reply: string, now: int)
    ensures var d := Answer(data, user, combined, reply, now);
      Queued(d, user, now) == [] && AnalysisLines(d, user, now) == []
  {
    var asked := SaveContext(data, user, ChatEntry("user", combined), now);
    var cleaned := KV.Del(asked, AnalysisKey(user));
    var answered := SaveContext(cleaned, user, ChatEntry("assistant", reply), now);
    ChatKeyDistinct(user);
    QueueKeyDistinct(user);
    SaveContextSpec(cleaned, user, ChatEntry("assistant", reply), now, AnalysisKey(user), now);
    KV.GetAfterDel(answered, StalePendingKey(user), AnalysisKey(user), now);
    KV.GetAfterDel(KV.Del(answered, StalePendingKey(user)), QueueKey(user), AnalysisKey(user), now);
    KV.GetAfterDel(KV.Del(answered, StalePendingKey(user)), QueueKey(user), QueueKey(user), now);
  }

  /** With no pending image and a batch that combines, the batch answers:
      the conversation ends with the combined message and the reply, and
      the queue and the analyses are cleared. */
  lemma BatchedAnswers(data: KV.Data, user: string, now: int, reply: string)
    requires Pending(data, user, now) <= 0 && Queued(data, user, now) != []
    requires var msgs := SortQueue(Queued(data, user, now));
      AllMessages(msgs) && ImagesIn(msgs) <= |AnalysisLines(data, user, now)|
    ensures Batched(data, user, now, reply).1 == Replied(Send.Outgoing(reply))
    ensures var d := Batched(data, user, now, reply).0;
      var h := History(d, user, now);
      && |h| >= 2 && h[|h| - 1] == ChatEntry("assistant", reply)
      && h[|h| - 2] == ChatEntry("user", Combine(SortQueue(Queued(data, user, now)), AnalysisLines(data, user, now)).value.0)
      && Queued(d, user, now) == [] && AnalysisLines(d, user, now) == []
  {
    FlagKeysDistinct(user);
    PendingKeyDistinct(user);
    QueueKeyDistinct(user);
    ChatKeyDistinct(user);
    var unflagged := KV.Del(data, ScheduledKey(user));
    DelView(data, ScheduledKey(user), user, now);
    var msgs := SortQueue(Queued(data, user, now));
    var combined := Combine(msgs, AnalysisLines(data, user, now)).value.0;
    assert Batched(data, user, now, reply) == (Answer(unflagged, user, combined, reply, now), Replied(Send.Outgoing(reply)));
    AnswerHistory(unflagged, user, combined, reply, now);
    AnswerClears(unflagged, user, combined, reply, now);
  }

  /** A run with the lock, no mute, no pending image and a batch that
      combines replies: every message sent is within Instagram's limit and
      together they keep the reply's non-whitespace text, and the lock is
      released. */
  lemma ProcessReplies(data: KV.Data, user: string, now: int, reply: string)
    requires !KV.Live(data, LockKey(user), now) && !IsMuted(data, user, now) && Pending(data, user, now) <= 0
    requires Queued(data, user, now) != []
    requires var msgs := SortQueue(Queued(data, user, now));
      AllMessages(msgs) && ImagesIn(msgs) <= |AnalysisLines(data, user, now)|
    ensures var r := Process(data, user, now, reply);
      && r.1 == Replied(Send.Outgoing(reply))
      && (forall c :: c in r.1.sent ==> |c| <= Send.MessageMaxLength)
      && NonSpace(Send.Concat(r.1.sent)) == NonSpace(reply)
      && LockKey(user) !in r.0
  {
    FlagKeysDistinct(user);
    PendingKeyDistinct(user);
    QueueKeyDistinct(user);
    var locked := Acquire(data, user, now).0;
    LockedView(data, user, now, MuteKey(user), now);
    LockedView(data, user, now, PendingKey(user), now);
    LockedView(data, user, now, QueueKey(user), now);
    LockedView(data, user, now, AnalysisKey(user), now);
    BatchedAnswers(locked, user, now, reply);
  }

  /** With the lock taken and no mute, a run is the batch followed by the
      release of the lock. */
  lemma ProcessRunsBatch(data: KV.Data, user: string, now: int, reply: string)
    requires !KV.Live(data, LockKey(user), now) && !IsMuted(data, user, now)
    ensures var locked := Acquire(data, user, now).0;
      Process(data, user, now, reply) == (Release(Batched(locked, user, now, reply).0, user), Batched(locked, user, now, reply).1)
  {
    FlagKeysDistinct(user);
    LockedView(data, user, now, MuteKey(user), now);
  }

  /** Deleting a key other than the user's history, queue, analyses and
      image counter leaves what a batch reads of that user as it was. */
  lemma DelView(d: KV.Data, key: string, user: string, now: int)
    requires key != ChatKey(user) && key != QueueKey(user) && key != AnalysisKey(user) && key != PendingKey(user)
    ensures History(KV.Del(d, key), user, now) == History(d, user, now)
    ensures Queued(KV.Del(d, key), user, now) == Queued(d, user, now)
    ensures AnalysisLines(KV.Del(d, key), user, now) == AnalysisLines(d, user, now)
    ensures Pending(KV.Del(d, key), user, now) == Pending(d, user, now)
  {
    KV.GetAfterDel(d, key, ChatKey(user), now);
    KV.GetAfterDel(d, key, QueueKey(user), now);
    KV.GetAfterDel(d, key, AnalysisKey(user), now);
    KV.GetAfterDel(d, key, PendingKey(user), now);
  }

  /** Releasing the lock leaves the conversation, the queue and the
      analyses as they were. */
  lemma ReleaseView(d: KV.Data, user: string, now: int)
    ensures History(Release(d, user), user, now) == History(d, user, now)
    ensures Queued(Release(d, user), user, now) == Queued(d, user, now)
    ensures AnalysisLines(Release(d, user), user, now) == AnalysisLines(d, user, now)
  {
    FlagKeysDistinct(user);
    PendingKeyDistinct(user);
    QueueKeyDistinct(user);
    ChatKeyDistinct(user);
    DelView(d, LockKey(user), user, now);
  }

  /** After such a run the conversation ends with the combined message
      and the reply, and the queue and the analyses are cleared. */
  lemma ProcessRepliesState(data: KV.Data, user: string, now: int, reply: string)
    requires !KV.Live(data, LockKey(user), now) && !IsMuted(data, user, now) && Pending(data, user, now) <= 0
    requires Queued(data, user, now) != []
    requires var msgs := SortQueue(Queued(data, user, now));
      AllMessages(msgs) && ImagesIn(msgs) <= |AnalysisLines(data, user, now)|
    ensures var d := Process(data, user, now, reply).0;
      var h := History(d, user, now);
      && |h| >= 2 && h[|h| - 1] == ChatEntry("assistant", reply)
      && h[|h| - 2] == ChatEntry("user", Combine(SortQueue(Queued(data, user, now)), AnalysisLines(data, user, now)).value.0)
      && Queued(d, user, now) == [] && AnalysisLines(d, user, now) == []
  {
    PendingKeyDistinct(user);
    QueueKeyDistinct(user);
    var locked := Acquire(data, user, now).0;
    LockedView(data, user, now, PendingKey(user), now);
    LockedView(data, user, now, QueueKey(user), now);
    LockedView(data, user, now, AnalysisKey(user), now);
    BatchedAnswers(locked, user, now, reply);
    ProcessRunsBatch(data, user, now, reply);
    ReleaseView(Batched(locked, user, now, reply).0, user, now);
  }

  // ---------------------------------------------------------------------
  // The handlers on the shared store
  // ---------------------------------------------------------------------

  /** acquire_processing_lock on the store. */
  method AcquireProcessingLock(store: Store, user: string) returns (ok: bool)
    modifies store
    ensures (store.data, ok) == Acquire(old(store.data), user, old(store.now)) && store.now == old(store.now)
  {
    ok := store.SetNx(LockKey(user), KV.Text("1"), LockTtl);
  }

  /** release_processing_lock on the store. */
  method ReleaseProcessingLock(store: Store, user: string)
    modifies store
    ensures store.data == Release(old(store.data), user) && store.now == old(store.now)
  {
    store.Del(LockKey(user));
  }

  /** mute_user on the store, with the default two hours. */
  method MuteUser(store: Store, user: string)
    modifies store
    ensures store.data == Mute(old(store.data), user, old(store.now)) && store.now == old(store.now)
  {
    store.SetEx(MuteKey(user), KV.Text("1"), MuteTtl);
  }

  /** is_user_muted on the store. */
  method IsUserMuted(store: Store, user: string) returns (muted: bool)
    ensures muted <==> IsMuted(store.data, user, store.now)
  {
    var flag := store.Get(MuteKey(user));
    muted := flag.Some?;
  }

  /** schedule_processing on the store; the timer armed is returned as its
      delay. */
  method ScheduleProcessing(store: Store, user: string, jitter: int) returns (timer: Option<int>)
    requires 1 <= jitter <= 10
    modifies store
    ensures (store.data, timer) == Schedule(old(store.data), user, old(store.now), jitter) && store.now == old(store.now)
  {
    var flag := store.Get(ScheduledKey(user));
    if flag.Some? {
      timer := None;
    } else {
      var grace := Grace(jitter);
      store.SetEx(ScheduledKey(user), KV.Text("1"), grace + ScheduleMargin);
      timer := Some(Ms(grace));
    }
  }

  /** queue_user_message on the store. */
  method QueueUserMessage(store: Store, user: string, m: Events.Messaging, hasImage: bool, jitter: int) returns (timer: Option<int>)
    requires 1 <= jitter <= 10
    modifies store
    ensures (store.data, timer) == Enqueue(old(store.data), user, m, hasImage, old(store.now), jitter) && store.now == old(store.now)
  {
    var muted := IsUserMuted(store, user);
    if muted {
      return None;
    }
    store.LPush(QueueKey(user), QueuedMessage(store.now, m, hasImage));
    store.Expire(QueueKey(user), QueueTtl);
    timer := ScheduleProcessing(store, user, jitter);
  }

  /** get_queued_messages on the store. */
  method GetQueuedMessages(store: Store, user: string) returns (msgs: seq<QueuedMessage>)
    ensures msgs == Queued(store.data, user, store.now)
  {
    var v := store.Get(QueueKey(user));
    msgs := KV.QueueOf(v);
  }

  /** clear_message_queue on the store. */
  method ClearMessageQueue(store: Store, user: string)
    modifies store
    ensures store.data == KV.Del(old(store.data), QueueKey(user)) && store.now == old(store.now)
  {
    store.Del(QueueKey(user));
  }

  /** save_convo_context on the store. */
  method SaveConvoContext(store: Store, user: string, entry: ChatEntry)
    modifies store
    ensures store.data == SaveContext(old(store.data), user, entry, old(store.now)) && store.now == old(store.now)
  {
    var v := store.Get(ChatKey(user));
    var context := KV.HistoryOf(v) + [entry];
    store.SetEx(ChatKey(user), KV.History(KeepLast(context, MaxHistoryLength)), ChatTtl);
  }

  /** The webhook's loop over the attachments: outcomes[i] is the analysis
      of attachment i, None when downloading or analysing it failed. */
  method RecordImageAnalyses(store: Store, user: string, atts: seq<Attachment>, outcomes: seq<Option<string>>)
    requires |outcomes| == |atts|
    modifies store
    ensures store.data == RecordAnalyses(old(store.data), user, atts, outcomes, old(store.now)) && store.now == old(store.now)
  {
    for i := 0 to |atts|
      invariant store.now == old(store.now)
      invariant store.data == RecordAnalyses(old(store.data), user, atts[..i], outcomes[..i], store.now)
    {
      assert atts[..i + 1][..i] == atts[..i];
      assert outcomes[..i + 1][..i] == outcomes[..i];
      if IsImage(atts[i]) && outcomes[i].Some? {
        store.RPush(AnalysisKey(user), AnalysisLine(i + 1, outcomes[i].value));
        store.Expire(AnalysisKey(user), AnalysisTtl);
        store.Decr(PendingKey(user));
      }
    }
    assert atts[..|atts|] == atts;
    assert outcomes[..|atts|] == outcomes;
  }

  /** The webhook's image branch on the store: raise the counter by the
      number of images, then record the analyses. */
  method TakeImages(store: Store, user: string, atts: seq<Attachment>, outcomes: seq<Option<string>>)
    requires |outcomes| == |atts|
    modifies store
    ensures store.data == ImageIntake(old(store.data), user, atts, outcomes, old(store.now)) && store.now == old(store.now)
  {
    var count := store.Get(PendingKey(user));
    ghost var counted := KV.SetEx(store.data, PendingKey(user), KV.Count(Pending(store.data, user, store.now) + ImageCount(atts)), PendingTtl, store.now);
    store.SetEx(PendingKey(user), KV.Count(KV.CountOf(count) + ImageCount(atts)), PendingTtl);
    assert store.data == counted;
    RecordImageAnalyses(store, user, atts, outcomes);
  }

  /** webhook for one messaging event, on the store. */
  method HandleWebhook(store: Store, ev: Events.Messaging, admins: set<string>, bot: string,
                       outcomes: seq<Option<string>>, jitter: int) returns (status: Status, timer: Option<int>)
    requires 1 <= jitter <= 10
    requires ev.message.Some? && ev.message.value.attachments.Some? ==> |outcomes| == |ev.message.value.attachments.value|
    modifies store
    ensures (store.data, status, timer) == Webhook(old(store.data), ev, admins, bot, outcomes, old(store.now), jitter)
    ensures store.now == old(store.now)
  {
    if ev.sender !in admins {
      return InvalidPayload, None;
    }
    if ev.reaction.Some? && ev.sender == bot && ev.reaction.value.emoji == Some(Heart) {
      MuteUser(store, ev.recipient);
      ClearMessageQueue(store, ev.recipient);
      store.Del(ScheduledKey(ev.recipient));
      return Received, None;
    }
    var hasImage := false;
    if ev.message.Some? && ev.message.value.attachments.Some? {
      var atts := ev.message.value.attachments.value;
      TakeImages(store, ev.sender, atts, outcomes);
      hasImage := ImageCount(atts) > 0;
    }
    timer := QueueUserMessage(store, ev.sender, ev, hasImage, jitter);
    status := Received;
  }

  /** The try block of process_user_messages, on the store. */
  method RunBatch(store: Store, user: string, reply: string) returns (outcome: Outcome)
    modifies store
    ensures (store.data, outcome) == Batched(old(store.data), user, old(store.now), reply) && store.now == old(store.now)
  {
    store.Del(ScheduledKey(user));
    var count := store.Get(PendingKey(user));
    if KV.CountOf(count) > 0 {
      return Deferred(Ms(RetrySeconds));
    }
    var msgs := GetQueuedMessages(store, user);
    if msgs == [] {
      return Idle;
    }
    var sorted := SortQueue(msgs);
    var lines := store.Get(AnalysisKey(user));
    var combined := CombineMessages(sorted, KV.LinesOf(lines));
    if combined.None? {
      return Failed;
    }
    SaveConvoContext(store, user, ChatEntry("user", combined.value.0));
    store.Del(AnalysisKey(user));
    var sent: seq<string>;
    if |reply| > Send.MessageMaxLength {
      sent := Send.SplitMessage(reply, Send.MessageMaxLength);
    } else {
      sent := [reply];
    }
    SaveConvoContext(store, user, ChatEntry("assistant", reply));
    store.Del(StalePendingKey(user));
    ClearMessageQueue(store, user);
    outcome := Replied(sent);
  }

  /** process_user_messages, on the store. */
  method ProcessUserMessages(store: Store, user: string, reply: string) returns (outcome: Outcome)
    modifies store
    ensures (store.data, outcome) == Process(old(store.data), user, old(store.now), reply) && store.now == old(store.now)
  {
    var ok := AcquireProcessingLock(store, user);
    if !ok {
      return Busy;
    }
    var muted := IsUserMuted(store, user);
    if muted {
      ReleaseProcessingLock(store, user);
      return Silenced;
    }
    outcome := RunBatch(store, user, reply);
    ReleaseProcessingLock(store, user);
  }
}
