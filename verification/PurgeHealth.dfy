/** What the caches and the snapshots are after a purge: as good as before, for every other subject unchanged. */
module PurgeHealth {
  import opened Domain
  import opened Records
  import opened Database
  import opened FeatureEngine
  import opened Registry
  import opened FeatureService
  import opened Purge
  import opened PurgeInvariants
  import ProfileService

  /** The observations of every other subject are listed as before. */
  lemma OthersObservedAlike(db: Tables, ref: SubjectRef, key: StateKey)
    requires Numbered(db.observations)
    ensures ObservationsAt(Purged(db, ref).observations, key) == if key.subject == ref then []
            else ObservationsAt(db.observations, key)
  {
    hide Scrubbed;
    PurgedParts(db, ref);
    var t, u := db.observations, Purged(db, ref).observations;
    if key.subject == ref {
      NobodyObserved(u, key);
    } else {
      forall o | InDimension(o, key.subject, key.dimension) ensures Stores(t, o) <==> Stores(u, o) {
        if Stores(t, o) { assert o.id in u && u[o.id] == o; }
      }
      ListingDetermined(t, u, key.subject, key.dimension);
    }
  }

  lemma NobodyObserved(t: map<Id, Observation>, key: StateKey)
    requires forall id | id in t :: t[id].subject != key.subject
    ensures ObservationsAt(t, key) == []
  {
    hide ObservationsIn;
    var obs := ObservationsAt(t, key);
    if obs != [] {
      assert obs[0] in obs;
      InMember(t, key.subject, key.dimension, obs[0]);
    }
  }

  lemma PurgeKeepsCache(db: Tables, ref: SubjectRef, aggs: seq<Aggregator>)
    requires Numbered(db.observations) && CacheOk(db, aggs)
    ensures CacheOk(Purged(db, ref), aggs)
  {
    hide Scrubbed, ObservationsAt, Matching, Winner, LinksOk, ObservationValid, Numbered;
    PurgedParts(db, ref);
    var after := Purged(db, ref);
    forall key ensures Cached(after.observations, after.states, aggs, key) {
      assert Cached(db.observations, db.states, aggs, key);
      OthersObservedAlike(db, ref, key);
    }
    LinksStay(db, ref);
  }

  lemma LinksStay(db: Tables, ref: SubjectRef)
    requires LinksOk(db.states, db.stateEvidence)
    ensures LinksOk(Purged(db, ref).states, Purged(db, ref).stateEvidence)
  {
    hide Scrubbed;
    PurgedParts(db, ref);
  }

  /** After a purge every stored state is still what a rebuild would give. */
  lemma PurgeKeepsHealth(db: Tables, ref: SubjectRef, aggs: seq<Aggregator>)
    requires Healthy(db, aggs)
    ensures Healthy(Purged(db, ref), aggs)
  {
    hide Consistent, CacheOk, Purged, Numbered;
    ConsistentNumbered(db);
    PurgeKeepsConsistency(db, ref);
    PurgeKeepsCache(db, ref, aggs);
  }

  /** The other subjects' snapshots keep their dense versions. */
  lemma PurgeKeepsVersions(db: Tables, ref: SubjectRef)
    requires ProfileService.Versioned(db.snapshots)
    ensures ProfileService.Versioned(Purged(db, ref).snapshots)
  {
    hide Scrubbed;
    PurgedParts(db, ref);
  }
}
