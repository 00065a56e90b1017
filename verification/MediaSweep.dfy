/**
  The orphan sweep as the batch loop it is, with its counters, when no send interferes: what one
  call deletes and what it reports. Interference is the subject of the interleaved machine.
*/
module MediaSweep {
  import opened MessageSend
  import opened MessageSendMedia

  datatype SweepResult = SweepResult(scanned: nat, purged: nat, failures: nat)

  /** The batch rows that exist and are unbound. */
  function Orphans(media: map<MediaId, Attachment>, batch: seq<MediaId>): set<MediaId> {
    set m | m in batch && m in media && media[m].message.None?
  }

  predicate IsOrphan(media: map<MediaId, Attachment>, m: MediaId) {
    m in media && media[m].message.None?
  }

  /** What a batch deletes, and what it fails to purge and therefore keeps. */
  function Dead(media: map<MediaId, Attachment>, batch: seq<MediaId>, failing: set<MediaId>): set<MediaId> {
    Orphans(media, batch) - failing
  }

  function Stuck(media: map<MediaId, Attachment>, batch: seq<MediaId>, failing: set<MediaId>): set<MediaId> {
    Orphans(media, batch) * failing
  }

  lemma OrphansSnoc(media: map<MediaId, Attachment>, done: seq<MediaId>, m: MediaId)
    ensures IsOrphan(media, m) ==> Orphans(media, done + [m]) == Orphans(media, done) + {m}
    ensures !IsOrphan(media, m) ==> Orphans(media, done + [m]) == Orphans(media, done)
    ensures m !in done ==> m !in Orphans(media, done)
  {
  }

  lemma CutSnoc(o: set<MediaId>, m: MediaId, failing: set<MediaId>)
    requires m !in o
    ensures m in failing ==> (o + {m}) - failing == o - failing && |(o + {m}) * failing| == |o * failing| + 1
    ensures m !in failing ==> (o + {m}) - failing == (o - failing) + {m} && (o + {m}) * failing == o * failing
  {
  }

  /** How one more row changes the two sets. */
  lemma OneMoreRow(media: map<MediaId, Attachment>, done: seq<MediaId>, m: MediaId, failing: set<MediaId>)
    requires m !in done
    ensures m !in Dead(media, done, failing)
    ensures IsOrphan(media, m) && m !in failing ==>
              && Dead(media, done + [m], failing) == Dead(media, done, failing) + {m}
              && |Stuck(media, done + [m], failing)| == |Stuck(media, done, failing)|
    ensures IsOrphan(media, m) && m in failing ==>
              && Dead(media, done + [m], failing) == Dead(media, done, failing)
              && |Stuck(media, done + [m], failing)| == |Stuck(media, done, failing)| + 1
    ensures !IsOrphan(media, m) ==>
              && Dead(media, done + [m], failing) == Dead(media, done, failing)
              && |Stuck(media, done + [m], failing)| == |Stuck(media, done, failing)|
  {
    OrphansSnoc(media, done, m);
    CutSnoc(Orphans(media, done), m, failing);
  }

  /** A batch deletes its unbound rows, except those whose object the store refuses to delete. */
  lemma DeadAre(media: map<MediaId, Attachment>, batch: seq<MediaId>, failing: set<MediaId>, m: MediaId)
    ensures m in Dead(media, batch, failing) <==> m in batch && m in media && media[m].message.None? && m !in failing
    ensures m in Stuck(media, batch, failing) <==> m in batch && m in media && media[m].message.None? && m in failing
  {
  }

  lemma NextRow(batch: seq<MediaId>, i: nat)
    requires Distinct(batch) && i < |batch|
    ensures batch[..i] + [batch[i]] == batch[..i + 1] && batch[i] !in batch[..i]
  {
  }

  class MediaLibrary {
    var media: map<MediaId, Attachment>
    var objects: set<MediaId>

    constructor (media: map<MediaId, Attachment>, objects: set<MediaId>)
      ensures this.media == media && this.objects == objects
    {
      this.media, this.objects := media, objects;
    }

    /**
      One batch. `failing` are the objects the store refuses to delete; rows deleted inside the
      transaction leave the table only at its commit, after the loop.
    */
    method SweepOrphanedMedia(batch: seq<MediaId>, failing: set<MediaId>) returns (result: SweepResult)
      requires Distinct(batch)
      modifies this
      ensures media == old(media) - Dead(old(media), batch, failing)
      ensures objects == old(objects) - Dead(old(media), batch, failing)
      ensures forall m | m in old(media) :: m !in media <==> m in batch && old(media)[m].message.None? && m !in failing
      ensures forall m | m in media :: m in old(media) && media[m] == old(media)[m]
      ensures forall m | m in old(objects) :: m !in objects <==>
                m in batch && m in old(media) && old(media)[m].message.None? && m !in failing
      ensures result == SweepResult(|batch|, |Dead(old(media), batch, failing)|, |Stuck(old(media), batch, failing)|)
    {
      var gone, purged, failures := {}, 0, 0;
      for i := 0 to |batch|
        invariant media == old(media)
        invariant gone == Dead(media, batch[..i], failing) && objects == old(objects) - gone
        invariant purged == |gone| && failures == |Stuck(media, batch[..i], failing)|
      {
        var m := batch[i];
        NextRow(batch, i);
        OneMoreRow(media, batch[..i], m, failing);
        if IsOrphan(media, m) {
          if m in failing {
            failures := failures + 1;
          } else {
            assert old(objects) - gone - {m} == old(objects) - (gone + {m});
            objects, gone, purged := objects - {m}, gone + {m}, purged + 1;
          }
        }
      }
      assert batch[..|batch|] == batch;
      media := media - gone;
      result := SweepResult(|batch|, purged, failures);
    }
  }
}
