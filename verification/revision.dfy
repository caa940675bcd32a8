/** Revisions and the erasing passes: when an edit is recorded, what its link may
    name, and what keeps erased words from coming back. */
module Revision {
  import opened Vocabulary
  import opened Kind
  import opened Ledger
  import opened Debt

  // ─── The one store read ────────────────────────────────────────────────

  /** No row of the conversation carries a platform id. */
  ghost predicate Gone(blocks: seq<Block>, named: string) {
    forall i | 0 <= i < |blocks| && blocks[i].Chat? :: !blocks[i].row.AnswersTo(named)
  }

  ghost predicate LiveVersion(blocks: seq<Block>, named: string, i: nat) {
    i < |blocks| && blocks[i].Chat? && blocks[i].row.AnswersTo(named) && blocks[i].row.text.Some?
  }

  /** The newest live version of a message. */
  ghost predicate NewestLive(blocks: seq<Block>, named: string, i: nat) {
    LiveVersion(blocks, named, i) && forall k: nat | LiveVersion(blocks, named, k) :: k <= i
  }

  /** An edit is recorded exactly when it is a privacy command, or a live version of the
      message it names stands and the newest one is somebody else's or says something
      different. Its link is kept exactly when the newest live version is its sender's;
      a privacy command's also when none stands. */
  lemma RevisionIsRecordedExactly(blocks: seq<Block>, message: Inbound, named: string)
    requires message.revises == Some(named)
    ensures RevisionReading(blocks, message).Recorded? <==>
            || message.family
            || exists i: nat ::
                 && NewestLive(blocks, named, i)
                 && (blocks[i].row.principalId != Some(message.principalId) || blocks[i].row.text != Some(message.text))
    ensures RevisionReading(blocks, message) == Recorded(Kept) <==>
            || (message.family && forall i: nat :: !LiveVersion(blocks, named, i))
            || exists i: nat ::
                 && NewestLive(blocks, named, i) && blocks[i].row.principalId == Some(message.principalId)
                 && (message.family || blocks[i].row.text != Some(message.text))
  {
    var newest := NewestVersion(blocks, named);
    if newest.Some? {
      assert NewestLive(blocks, named, newest.value);
      assert forall i: nat | NewestLive(blocks, named, i) :: i == newest.value;
    } else {
      assert forall i: nat :: !LiveVersion(blocks, named, i);
    }
  }

  /** The author check on a recorded edit's link, a privacy command's included: the newest
      live version of what it names is its sender's, or none stands. */
  ghost predicate LinkIsKept(blocks: seq<Block>, message: Inbound)
    requires message.revises.Some?
  {
    var named := message.revises.value;
    || (forall i: nat :: !LiveVersion(blocks, named, i))
    || exists i: nat :: NewestLive(blocks, named, i) && blocks[i].row.principalId == Some(message.principalId)
  }

  /** A message is recorded exactly when no flag of its sender stands, ahead of the lock or
      under it, and it is no edit or one that is recorded; a privacy command, whatever
      flag stands. Nothing else leaves a trace. */
  lemma IngestionIsRecordedExactly(s: Spine, message: Inbound, around: Surroundings, meanwhile: Meanwhile)
    ensures UnderLockReading(s.blocks, message, around).Recorded? <==>
            || message.family
            || (&& !around.standingFlag && !around.standingFlagUnderLock
                && (message.revises.Some? ==>
                      exists i: nat ::
                        && NewestLive(s.blocks, message.revises.value, i)
                        && (s.blocks[i].row.principalId != Some(message.principalId)
                            || s.blocks[i].row.text != Some(message.text))))
    ensures UnderLockReading(s.blocks, message, around).Recorded? <==>
            |Ingested(s, message, around, meanwhile).blocks| > |s.blocks|
    ensures UnderLockReading(s.blocks, message, around).Disregarded? ==> Ingested(s, message, around, meanwhile) == s
  {
    if message.revises.Some? {
      RevisionIsRecordedExactly(s.blocks, message, message.revises.value);
    }
    hide NewestVersion, StampOf, RecordedRow, TailRead, ReadMoment;
  }

  /** What an ingestion's own deletion and everything landing meanwhile leave of the rows
      that stood: each as it was, or stripped under the one id the command names; and
      behind them the kinds that landed. */
  ghost predicate RowsStand(s: Spine, t: seq<Block>, message: Inbound, landed: seq<BlockType>) {
    && |s.blocks| + |landed| <= |t|
    && (forall i | 0 <= i < |s.blocks| ::
          if s.blocks[i].Chat? && Mirrored(message).Some?
             && (s.blocks[i].row.origin == Mirrored(message) || s.blocks[i].row.revises == Mirrored(message))
          then t[i].Chat? && Stripped(s.blocks[i].row, t[i].row)
          else t[i] == s.blocks[i])
    && (forall k | 0 <= k < |landed| :: t[|s.blocks| + k] == Other(landed[k]))
  }

  /** What landed ahead of the tail read: a recorded retraction's own block among it, where
      the command names the assistant's message. */
  function LandedAhead(message: Inbound, around: Surroundings, meanwhile: Meanwhile): seq<BlockType> {
    meanwhile.opening
    + (if message.revises.None? && message.deletion == Some(OfAssistant) && around.retractionRecorded
       then [Retraction] else [])
    + meanwhile.settled
  }

  lemma ReachedRowsStand(s: Spine, message: Inbound, around: Surroundings, meanwhile: Meanwhile)
    ensures var reached := Reached(s, message, around, meanwhile).blocks;
            && RowsStand(s, reached, message, LandedAhead(message, around, meanwhile))
            && |reached| == |s.blocks| + |LandedAhead(message, around, meanwhile)|
  {
    var begun := Appended(s, meanwhile.opening);
    assert forall i | 0 <= i < |s.blocks| :: begun.blocks[i] == s.blocks[i];
  }

  lemma EarlierRowsStand(s: Spine, message: Inbound, around: Surroundings, meanwhile: Meanwhile)
    requires UnderLockReading(s.blocks, message, around).Recorded?
    ensures var t := Ingested(s, message, around, meanwhile).blocks;
            var landed := LandedAhead(message, around, meanwhile) + meanwhile.between + meanwhile.after;
            && |t| == |s.blocks| + |landed| + 1 && RowsStand(s, t, message, landed)
            && var link := UnderLockReading(s.blocks, message, around).link;
            var stamp := StampOf(Reached(s, message, around, meanwhile), message, around, meanwhile.between);
            t[|t| - 1] == Chat(RecordedRow(message, around, link, stamp))
  {
    hide Reached, StampOf, RecordedRow, UnderLockReading, Stripped, LandedAhead, ReadMoment, TailRead;
    ReachedRowsStand(s, message, around, meanwhile);
    var reached := Reached(s, message, around, meanwhile);
    var t := Ingested(s, message, around, meanwhile).blocks;
    assert t == Riding(reached, meanwhile.between, meanwhile.after).blocks + [t[|t| - 1]];
    assert forall i | 0 <= i < |reached.blocks| :: t[i] == reached.blocks[i];
  }

  /** The columns of a recorded row, each off the message and its surroundings: the debt
      facts, the handle unless its person's standing forbids it or it could blur the
      prefix, and the reply by an id or as the assistant's. */
  ghost predicate HoldsTheMessage(row: ChatMessage, message: Inbound, around: Surroundings) {
    var summoned := message.addressed || (around.helpful && !message.bot);
    && row.role == Some(User) && row.text == Some(message.text) && row.principalId == Some(message.principalId)
    && row.authority == Some(message.authority) && row.origin == message.origin
    && row.sentAt == Some(message.sentAt)
    && row.literalAddressed == Some(message.addressed) && row.addressed == Some(summoned)
    && row.limited == (if message.command || message.deletion.Some? then Some(LimitedBy.Command)
                       else if summoned then around.refusing else None)
    && row.speaker == (if around.standingFlag || message.speaker.None? || Blurs(message.speaker.value) then None
                       else message.speaker)
    && row.replyTarget == (match message.replyTarget case Some(ToMessage(id)) => Some(id) case _ => None)
    && row.replyToAssistant == (if message.replyTarget == Some(ToAssistant) then Some(true) else None)
  }

  lemma RecordedColumns(s: Spine, message: Inbound, around: Surroundings, link: RevisionLink, between: seq<BlockType>)
    ensures var row := RecordedRow(message, around, link, StampOf(s, message, around, between));
            HoldsTheMessage(row, message, around) && row.revises == if link.Kept? then message.revises else None
  {
    if message.speaker.Some? {
      BlursExactly(message.speaker.value);
    }
    hide StorableSpeaker, Blurs, TailRead, DebtOf, TailWithheld;
  }

  /** What one recorded ingestion leaves: one row at the end with the message's own facts,
      its link only to a live version of its own author's; every earlier row as it was, or
      stripped under the one id the command names; and between them what landed. */
  lemma IngestionRecordsTheMessage(s: Spine, message: Inbound, around: Surroundings, meanwhile: Meanwhile)
    requires UnderLockReading(s.blocks, message, around).Recorded?
    ensures var t := Ingested(s, message, around, meanwhile).blocks;
            var landed := LandedAhead(message, around, meanwhile) + meanwhile.between + meanwhile.after;
            && |t| == |s.blocks| + |landed| + 1 && RowsStand(s, t, message, landed)
            && t[|t| - 1].Chat? && HoldsTheMessage(t[|t| - 1].row, message, around)
            && t[|t| - 1].row.revises ==
               if message.revises.Some? && LinkIsKept(s.blocks, message) then message.revises else None
  {
    EarlierRowsStand(s, message, around, meanwhile);
    RecordedColumns(Reached(s, message, around, meanwhile), message, around,
                    UnderLockReading(s.blocks, message, around).link, meanwhile.between);
    if message.revises.Some? {
      RevisionIsRecordedExactly(s.blocks, message, message.revises.value);
    }
    hide NewestVersion, Ingested, RowsStand, Reached, StampOf, RecordedRow, HoldsTheMessage;
  }

  // ─── Erased words stay erased ──────────────────────────────────────────

  /** The deletion mirror leaves no version of the named message. */
  lemma MirrorLeavesNoVersion(s: Spine, named: string)
    ensures Gone(Emptied(s, Message(named)).blocks, named)
  {
  }

  /** The person-wide pass leaves no version of a message only that person carries,
      and it is exactly those messages it removes whole. */
  lemma PersonErasureLeavesNoVersion(s: Spine, principalId: int, named: string)
    ensures Gone(Emptied(s, Person(principalId)).blocks, named) <==>
            forall i | 0 <= i < |s.blocks| && s.blocks[i].Chat? && s.blocks[i].row.AnswersTo(named) ::
              s.blocks[i].row.principalId == Some(principalId)
  {
  }

  /** The one write that puts a gone id back: a privacy command sent as an edit of it,
      or a recorded message carrying it as its own, a redelivered original above all. */
  predicate Revives(s: Spine, event: Event, named: string) {
    event.Said? &&
    if event.message.revises == Some(named) then event.message.family
    else event.message.origin == Some(named) && UnderLockReading(s.blocks, event.message, event.around).Recorded?
  }

  /** A recorded message puts a gone id back exactly when it carries it, as its own or as
      the one it edits. */
  lemma RecordedOverTheGone(s: Spine, message: Inbound, around: Surroundings, meanwhile: Meanwhile, named: string)
    requires Gone(s.blocks, named) && UnderLockReading(s.blocks, message, around).Recorded?
    ensures Gone(Ingested(s, message, around, meanwhile).blocks, named) <==>
            message.origin != Some(named) && message.revises != Some(named)
  {
    var t := Ingested(s, message, around, meanwhile).blocks;
    var landed := LandedAhead(message, around, meanwhile) + meanwhile.between + meanwhile.after;
    IngestionRecordsTheMessage(s, message, around, meanwhile);
    hide Ingested, UnderLockReading, LandedAhead;
    forall i | |s.blocks| <= i < |t| - 1 ensures t[i].Other? {
      assert t[|s.blocks| + (i - |s.blocks|)] == Other(landed[i - |s.blocks|]);
    }
    assert forall i | 0 <= i < |s.blocks| && t[i].Chat? :: !t[i].row.AnswersTo(named);
    assert message.revises == Some(named) ==> LinkIsKept(s.blocks, message);
    assert t[|t| - 1].row.AnswersTo(named) <==> message.origin == Some(named) || message.revises == Some(named);
  }

  /** A gone id stays gone over a step exactly when the step is not such a write; an edit
      of it is dropped whole unless it is. */
  lemma RevivedExactly(s: Spine, event: Event, named: string)
    requires Gone(s.blocks, named)
    ensures Gone(Next(s, event).blocks, named) <==> !Revives(s, event, named)
    ensures event.Said? && event.message.revises == Some(named) && !Revives(s, event, named) ==> Next(s, event) == s
  {
    if event.Said? {
      var message := event.message;
      if message.revises == Some(named) {
        assert NewestVersion(s.blocks, named).None?;
      }
      if UnderLockReading(s.blocks, message, event.around).Recorded? {
        RecordedOverTheGone(s, message, event.around, event.meanwhile, named);
        hide StampedAppend, Reached, Gone;
      }
    }
  }

  ghost predicate NeverRevived(s: Spine, events: seq<Event>, named: string)
    decreases |events|
  {
    |events| == 0 || (!Revives(s, events[0], named) && NeverRevived(Next(s, events[0]), events[1..], named))
  }

  /** Over any run, an id no row carries is carried by none at any time exactly when no
      write puts it back; and as long as none does, no edit of it is ever recorded. */
  lemma {:induction false} ErasedWordsStayErased(s: Spine, events: seq<Event>, named: string)
    requires Gone(s.blocks, named)
    ensures NeverRevived(s, events, named) <==>
            forall k | 0 <= k <= |events| :: Gone(Run(s, events[..k]).blocks, named)
    ensures NeverRevived(s, events, named) ==>
            forall k | 0 <= k < |events| && events[k].Said? && events[k].message.revises == Some(named) ::
              Run(s, events[..k + 1]) == Run(s, events[..k])
    decreases |events|
  {
    if |events| > 0 {
      var next, rest := Next(s, events[0]), events[1..];
      RevivedExactly(s, events[0], named);
      forall k | 0 < k <= |events| ensures Run(s, events[..k]) == Run(next, rest[..k - 1]) {
        assert events[..k][1..] == rest[..k - 1];
      }
      assert Run(s, events[..0]) == s && Run(next, rest[..0]) == next;
      if Gone(next.blocks, named) {
        ErasedWordsStayErased(next, rest, named);
        assert forall k | 0 <= k < |rest| :: rest[k] == events[k + 1];
        if forall k | 0 <= k <= |events| :: Gone(Run(s, events[..k]).blocks, named) {
          forall k | 0 <= k <= |rest| ensures Gone(Run(next, rest[..k]).blocks, named) {
            assert Run(s, events[..k + 1]) == Run(next, rest[..k]);
          }
        }
      } else {
        assert Run(s, events[..1]) == next;
      }
    }
  }

  /** The exemption is a real door: from every ledger, a privacy command sent as an
      edit of an emptied message records a live version under its id, and the same
      person's next differing edit is then recorded with its link. */
  lemma AnExemptEditRevivesTheId(s: Spine, command: Inbound, edit: Inbound, around: Surroundings,
                                 meanwhile: Meanwhile, named: string)
    requires Gone(s.blocks, named)
    requires command.family && command.revises == Some(named)
    requires !edit.family && edit.revises == Some(named)
    requires edit.principalId == command.principalId && edit.text != command.text
    ensures RevisionReading(s.blocks, edit) == Disregarded
    ensures RevisionReading(Ingested(s, command, around, meanwhile).blocks, edit) == Recorded(Kept)
  {
    assert NewestVersion(s.blocks, named).None?;
    EarlierRowsStand(s, command, around, meanwhile);
  }

  /** So is redelivery: the ingestion dedupes no message by its id, so the original of an
      emptied message, delivered again, records under the emptied id, and the person's
      next differing edit of it is recorded with its link. */
  lemma ARedeliveredOriginalRevivesTheId(s: Spine, original: Inbound, edit: Inbound, around: Surroundings,
                                         meanwhile: Meanwhile, named: string)
    requires Gone(s.blocks, named)
    requires original.origin == Some(named) && original.revises.None?
    requires !around.standingFlag && !around.standingFlagUnderLock
    requires !edit.family && edit.revises == Some(named)
    requires edit.principalId == original.principalId && edit.text != original.text
    ensures Revives(s, Said(original, around, meanwhile), named)
    ensures RevisionReading(s.blocks, edit) == Disregarded
    ensures RevisionReading(Ingested(s, original, around, meanwhile).blocks, edit) == Recorded(Kept)
  {
    assert NewestVersion(s.blocks, named).None?;
    EarlierRowsStand(s, original, around, meanwhile);
  }

  // ─── What a stored link names ──────────────────────────────────────────

  predicate Exempt(stamping: Stamping) {
    (stamping.Withheld? || stamping.Read?) && stamping.exempt
  }

  /** A stored link has an earlier row by the same person under the id it names. */
  ghost predicate LinkStands(s: Spine, i: nat)
    requires i < |s.blocks| == |s.stampings|
  {
    s.blocks[i].Chat? && s.blocks[i].row.revises.Some? && !Exempt(s.stampings[i]) ==>
      exists j: nat | j < i ::
        && s.blocks[j].Chat? && s.blocks[j].row.AnswersTo(s.blocks[i].row.revises.value)
        && s.blocks[j].row.principalId == s.blocks[i].row.principalId
  }

  /** No later version's own id names a message: every row under it that is itself a
      version shares the id. */
  ghost predicate IsRoot(blocks: seq<Block>, named: string) {
    forall j | 0 <= j < |blocks| && blocks[j].Chat? && blocks[j].row.origin == Some(named) ::
      blocks[j].row.revises.Some? ==> blocks[j].row.revises == Some(named)
  }

  ghost predicate Linked(s: Spine) {
    && |s.blocks| == |s.stampings|
    && (forall i | 0 <= i < |s.blocks| :: LinkStands(s, i))
    && (forall i | 0 <= i < |s.blocks| && s.blocks[i].Chat? && s.blocks[i].row.revises.Some? ::
          IsRoot(s.blocks, s.blocks[i].row.revises.value))
  }

  /** What an adapter owes: edits and deletions name root ids, and an edit's own id was
      never named before, unless it is the root it edits. */
  ghost predicate NamesRoots(s: Spine, event: Event) {
    && (event.MessageErased? ==> IsRoot(s.blocks, event.named))
    && (event.Said? ==>
      var message := event.message;
      && (message.revises.Some? ==> IsRoot(s.blocks, message.revises.value))
      && (Mirrored(message).Some? ==> IsRoot(s.blocks, Mirrored(message).value))
      && (message.origin.Some? && message.revises.Some? && message.revises != message.origin ==>
            forall i | 0 <= i < |s.blocks| && s.blocks[i].Chat? :: s.blocks[i].row.revises != message.origin))
  }

  ghost predicate RunNamesRoots(s: Spine, events: seq<Event>)
    decreases |events|
  {
    |events| == 0 || (NamesRoots(s, events[0]) && RunNamesRoots(Next(s, events[0]), events[1..]))
  }

  lemma AppendedStaysLinked(s: Spine, kinds: seq<BlockType>)
    requires Linked(s)
    ensures Linked(Appended(s, kinds))
  {
    var t := Appended(s, kinds);
    forall i | 0 <= i < |t.blocks| ensures LinkStands(t, i) {
      if i < |s.blocks| && s.blocks[i].Chat? && s.blocks[i].row.revises.Some? && !Exempt(s.stampings[i]) {
        assert LinkStands(s, i);
        var j: nat :| j < i && s.blocks[j].Chat? && s.blocks[j].row.AnswersTo(s.blocks[i].row.revises.value)
                      && s.blocks[j].row.principalId == s.blocks[i].row.principalId;
        assert t.blocks[j] == s.blocks[j];
      }
    }
    forall i | 0 <= i < |t.blocks| && t.blocks[i].Chat? && t.blocks[i].row.revises.Some?
      ensures IsRoot(t.blocks, t.blocks[i].row.revises.value)
    {
      assert IsRoot(s.blocks, s.blocks[i].row.revises.value);
    }
  }

  /** Both erasing passes keep every surviving link standing: a person's rows go
      together, and a root id reaches every version at once. */
  lemma EmptiedStaysLinked(s: Spine, target: Target)
    requires Linked(s)
    requires target.Message? ==> IsRoot(s.blocks, target.named)
    ensures Linked(Emptied(s, target))
  {
    var t := Emptied(s, target);
    assert forall i | 0 <= i < |s.blocks| :: t.blocks[i] == EmptiedBlock(s.blocks[i], target);
    forall i | 0 <= i < |t.blocks| ensures LinkStands(t, i) {
      if t.blocks[i].Chat? && t.blocks[i].row.revises.Some? && !Exempt(t.stampings[i]) {
        assert t.blocks[i] == s.blocks[i] && LinkStands(s, i);
        var named := s.blocks[i].row.revises.value;
        assert IsRoot(s.blocks, named);
        var j: nat :| j < i && s.blocks[j].Chat? && s.blocks[j].row.AnswersTo(named)
                      && s.blocks[j].row.principalId == s.blocks[i].row.principalId;
        assert !Hits(target, s.blocks[j].row);
        assert t.blocks[j] == s.blocks[j];
      }
    }
    forall i | 0 <= i < |t.blocks| && t.blocks[i].Chat? && t.blocks[i].row.revises.Some?
      ensures IsRoot(t.blocks, t.blocks[i].row.revises.value)
    {
      assert IsRoot(s.blocks, s.blocks[i].row.revises.value);
    }
  }

  /** One more row keeps every link standing: its own link names a root and an earlier row
      by the same person, and its own id, where it is an edit's, was never named. */
  lemma WrittenStaysLinked(s: Spine, row: ChatMessage, stamping: Stamping)
    requires Linked(s)
    requires row.revises.Some? ==> IsRoot(s.blocks, row.revises.value)
    requires row.revises.Some? && !Exempt(stamping) ==>
               exists j: nat | j < |s.blocks| ::
                 && s.blocks[j].Chat? && s.blocks[j].row.AnswersTo(row.revises.value)
                 && s.blocks[j].row.principalId == row.principalId
    requires row.origin.Some? && row.revises.Some? && row.revises != row.origin ==>
               forall i | 0 <= i < |s.blocks| && s.blocks[i].Chat? :: s.blocks[i].row.revises != row.origin
    ensures Linked(Spine(s.blocks + [Chat(row)], s.stampings + [stamping]))
  {
    var t, n := Spine(s.blocks + [Chat(row)], s.stampings + [stamping]), |s.blocks|;
    forall i | 0 <= i <= n ensures LinkStands(t, i) {
      if i < n {
        assert LinkStands(s, i);
        assert forall j | 0 <= j <= i :: t.blocks[j] == s.blocks[j];
      } else if row.revises.Some? && !Exempt(stamping) {
        var j: nat :| j < |s.blocks| && s.blocks[j].Chat? && s.blocks[j].row.AnswersTo(row.revises.value)
                      && s.blocks[j].row.principalId == row.principalId;
        assert t.blocks[j] == s.blocks[j];
      }
    }
    forall i | 0 <= i <= n && t.blocks[i].Chat? && t.blocks[i].row.revises.Some?
      ensures IsRoot(t.blocks, t.blocks[i].row.revises.value)
    {
      var named := t.blocks[i].row.revises.value;
      assert i < n ==> t.blocks[i] == s.blocks[i] && IsRoot(s.blocks, named);
      forall j | 0 <= j <= n && t.blocks[j].Chat?
                 && t.blocks[j].row.origin == Some(named) && t.blocks[j].row.revises.Some?
        ensures t.blocks[j].row.revises == Some(named)
      {
        assert j < n ==> t.blocks[j] == s.blocks[j];
      }
    }
  }

  lemma ReachedStaysLinked(s: Spine, message: Inbound, around: Surroundings, meanwhile: Meanwhile)
    requires Linked(s) && NamesRoots(s, Said(message, around, meanwhile))
    ensures Linked(Reached(s, message, around, meanwhile))
  {
    var begun := Appended(s, meanwhile.opening);
    var deleted := Deleted(begun, message, around);
    AppendedStaysLinked(s, meanwhile.opening);
    if Mirrored(message).Some? {
      assert IsRoot(begun.blocks, Mirrored(message).value);
      EmptiedStaysLinked(begun, Message(Mirrored(message).value));
    } else if deleted != begun {
      AppendedStaysLinked(begun, [Retraction]);
    }
    AppendedStaysLinked(deleted, meanwhile.settled);
  }

  /** Every message row of what a row finds stood before, whole or emptied; and an edit's
      deletion empties nothing. */
  lemma RidingRows(s: Spine, message: Inbound, around: Surroundings, meanwhile: Meanwhile)
    ensures var riding := Riding(Reached(s, message, around, meanwhile), meanwhile.between, meanwhile.after).blocks;
            && |s.blocks| <= |riding|
            && (forall i | 0 <= i < |riding| && riding[i].Chat? ::
                  i < |s.blocks| && (riding[i] == s.blocks[i] || (s.blocks[i].Chat? && riding[i].row.Bare())))
            && (message.revises.Some? ==> forall i | 0 <= i < |s.blocks| :: riding[i] == s.blocks[i])
  {
    ReachedRowsStand(s, message, around, meanwhile);
    var reached, ahead := Reached(s, message, around, meanwhile), LandedAhead(message, around, meanwhile);
    var riding := Riding(reached, meanwhile.between, meanwhile.after).blocks;
    hide Reached, LandedAhead;
    forall i | |s.blocks| <= i < |riding| ensures riding[i].Other? {
      if i < |reached.blocks| {
        assert reached.blocks[|s.blocks| + (i - |s.blocks|)] == Other(ahead[i - |s.blocks|]);
      }
    }
    assert forall i | 0 <= i < |s.blocks| :: riding[i] == reached.blocks[i];
  }

  lemma IngestedStaysLinked(s: Spine, message: Inbound, around: Surroundings, meanwhile: Meanwhile)
    requires Linked(s) && NamesRoots(s, Said(message, around, meanwhile))
    requires UnderLockReading(s.blocks, message, around).Recorded?
    ensures Linked(Ingested(s, message, around, meanwhile))
  {
    var link := UnderLockReading(s.blocks, message, around).link;
    var reached := Reached(s, message, around, meanwhile);
    var riding := Riding(reached, meanwhile.between, meanwhile.after);
    ReachedStaysLinked(s, message, around, meanwhile);
    AppendedStaysLinked(reached, meanwhile.between);
    AppendedStaysLinked(Appended(reached, meanwhile.between), meanwhile.after);
    RidingRows(s, message, around, meanwhile);
    if link.Kept? && message.revises.Some? && !message.family {
      RevisionIsRecordedExactly(s.blocks, message, message.revises.value);
      var j: nat :|
        LiveVersion(s.blocks, message.revises.value, j) && s.blocks[j].row.principalId == Some(message.principalId);
      assert riding.blocks[j] == s.blocks[j];
    }
    hide Linked, Reached, TailRead;
    var t := Ingested(s, message, around, meanwhile);
    var n := |riding.blocks|;
    assert t == Spine(riding.blocks + [Chat(t.blocks[n].row)], riding.stampings + [t.stampings[n]]);
    WrittenStaysLinked(riding, t.blocks[n].row, t.stampings[n]);
  }

  lemma NextStaysLinked(s: Spine, event: Event)
    requires Linked(s) && NamesRoots(s, event)
    ensures Linked(Next(s, event))
  {
    match event
    case Wrote(kinds) => AppendedStaysLinked(s, kinds);
    case PersonErased(principalId) => EmptiedStaysLinked(s, Person(principalId));
    case MessageErased(named) => EmptiedStaysLinked(s, Message(named));
    case Said(message, around, meanwhile) =>
      if UnderLockReading(s.blocks, message, around).Recorded? {
        IngestedStaysLinked(s, message, around, meanwhile);
      }
  }

  /** In every reachable ledger whose adapter names root ids, every stored link has
      its earlier row by the same person: the author-keyed pass reaches both ends. */
  lemma {:induction false} EveryLinkStands(s: Spine, events: seq<Event>)
    requires Linked(s) && RunNamesRoots(s, events)
    ensures Linked(Run(s, events))
    decreases |events|
  {
    if |events| > 0 {
      NextStaysLinked(s, events[0]);
      EveryLinkStands(Next(s, events[0]), events[1..]);
    }
  }

  /** The obligation is needed: an edit naming the id of another edit is out of the
      root's reach, so deleting the message leaves that version's words standing. */
  lemma AChainedVersionOutlivesItsMessage(row: ChatMessage)
    requires row.text.Some?
    ensures var first := row.(origin := Some("1"), revises := None);
            var second := row.(origin := Some("2"), revises := Some("1"));
            var third := row.(origin := Some("3"), revises := Some("2"));
            var s := Spine([Chat(first), Chat(second), Chat(third)], [History, History, History]);
            var after := Emptied(s, Message("1"));
            && (forall i | 0 <= i < 3 :: LinkStands(s, i))
            && after.blocks[2] == s.blocks[2] && !LinkStands(after, 2)
  {
    var first := row.(origin := Some("1"), revises := None);
    var second := row.(origin := Some("2"), revises := Some("1"));
    var third := row.(origin := Some("3"), revises := Some("2"));
    var s := Spine([Chat(first), Chat(second), Chat(third)], [History, History, History]);
    assert s.blocks[0].row.AnswersTo("1") && s.blocks[1].row.AnswersTo("2");
    var after := Emptied(s, Message("1"));
    assert after.blocks == [Chat(first.Emptied()), Chat(second.Emptied()), Chat(third)];
  }
}
