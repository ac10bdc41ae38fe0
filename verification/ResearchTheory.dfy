/** What research keeps over any run. */
module ResearchTheory {
  import opened Rows
  import opened Research
  import Payroll

  ghost predicate CompletedKey(w: World, key: NodeKey) { key in w.research && w.research[key].Completed? }

  // A node is RESEARCHING exactly when it has a running job, and it has at most one.
  ghost predicate RunningAgrees(w: World) {
    && (forall key :: StoredStatus(w, key).Researching? <==> HasRunningJob(w.researchJobs, key))
    && (forall i, j :: i in w.researchJobs && j in w.researchJobs && i != j
          && w.researchJobs[i].status.Running? && w.researchJobs[j].status.Running?
          ==> w.researchJobs[i].key != w.researchJobs[j].key)
  }

  // The completed set is closed under prerequisites, and what is under way or available has them.
  ghost predicate PrerequisitesHeld(w: World) {
    forall key :: key in w.research ==> !w.research[key].Locked? && PrerequisitesMet(w, key)
  }

  ghost predicate RecipesUnlocked(w: World) {
    forall key :: CompletedKey(w, key) ==> Unlocks(w.catalogue, key) <= w.unlocked
  }

  ghost predicate ResearchSound(w: World) { RunningAgrees(w) && PrerequisitesHeld(w) && RecipesUnlocked(w) }

  // Completed nodes and unlocked recipes only accumulate.
  ghost predicate ResearchGrows(w: World, next: World) {
    && (forall key :: CompletedKey(w, key) ==> CompletedKey(next, key))
    && w.unlocked <= next.unlocked && next.catalogue == w.catalogue
  }

  lemma CompletedMember(w: World, key: NodeKey)
    ensures key.node in CompletedNodes(w.research, key.company) <==> CompletedKey(w, key)
  {
    if key.node in CompletedNodes(w.research, key.company) {
      var k :| k in w.research && k.company == key.company && w.research[k].Completed? && k.node == key.node;
      assert k == key;
    }
  }

  lemma PrerequisitesStayMet(w: World, next: World, key: NodeKey)
    requires ResearchGrows(w, next) && PrerequisitesMet(w, key)
    ensures PrerequisitesMet(next, key)
  {
    forall n | n in CompletedNodes(w.research, key.company) ensures n in CompletedNodes(next.research, key.company) {
      CompletedMember(w, NodeKey(key.company, n));
      CompletedMember(next, NodeKey(key.company, n));
    }
  }

  lemma StartResearchSound(w: World, key: NodeKey, id: Id, tick: int)
    requires ResearchSound(w) && StartResearch(w, key, id, tick).Done?
    ensures ResearchGrows(w, StartResearch(w, key, id, tick).world)
    ensures ResearchSound(StartResearch(w, key, id, tick).world)
  {
    var next := StartResearch(w, key, id, tick).world;
    assert ResearchGrows(w, next);
    forall k | k in next.research ensures !next.research[k].Locked? && PrerequisitesMet(next, k) {
      PrerequisitesStayMet(w, next, k);
    }
    StartedAgrees(w, next, key, id);
  }

  lemma StartedAgrees(w: World, next: World, key: NodeKey, id: Id)
    requires RunningAgrees(w) && id !in w.researchJobs && !HasRunningJob(w.researchJobs, key)
    requires id in next.researchJobs && next.researchJobs[id].key == key && next.researchJobs[id].status.Running?
    requires next.researchJobs == w.researchJobs[id := next.researchJobs[id]] &&
            next.research == w.research[key := Researching]
    ensures RunningAgrees(next)
  {
    forall k ensures StoredStatus(next, k).Researching? <==> HasRunningJob(next.researchJobs, k) {
      assert StoredStatus(w, k).Researching? <==> HasRunningJob(w.researchJobs, k);
      if k == key {
        assert IsRunning(next.researchJobs, id, key);
      } else {
        if HasRunningJob(w.researchJobs, k) {
          var j :| j in w.researchJobs && IsRunning(w.researchJobs, j, k);
          assert IsRunning(next.researchJobs, j, k);
        }
        if HasRunningJob(next.researchJobs, k) {
          var j :| j in next.researchJobs && IsRunning(next.researchJobs, j, k);
          assert IsRunning(w.researchJobs, j, k);
        }
      }
    }
    forall i | i in w.researchJobs && w.researchJobs[i].status.Running? ensures w.researchJobs[i].key != key {
      assert IsRunning(w.researchJobs, i, w.researchJobs[i].key);
    }
  }

  // Ending a running job, in whatever way, leaves its node without one.
  lemma EndedAgrees(w: World, next: World, key: NodeKey, id: Id, status: ResearchStatus)
    requires RunningAgrees(w) && IsRunning(w.researchJobs, id, key) && !status.Researching?
    requires id in next.researchJobs && !next.researchJobs[id].status.Running?
    requires next.researchJobs == w.researchJobs[id := next.researchJobs[id]] &&
            next.research == w.research[key := status]
    ensures RunningAgrees(next)
  {
    forall k ensures StoredStatus(next, k).Researching? <==> HasRunningJob(next.researchJobs, k) {
      assert StoredStatus(w, k).Researching? <==> HasRunningJob(w.researchJobs, k);
      if HasRunningJob(next.researchJobs, k) {
        var j :| j in next.researchJobs && IsRunning(next.researchJobs, j, k);
        assert j != id && IsRunning(w.researchJobs, j, k);
      }
      if k != key && HasRunningJob(w.researchJobs, k) {
        var j :| j in w.researchJobs && IsRunning(w.researchJobs, j, k);
        assert IsRunning(next.researchJobs, j, k);
      }
    }
  }

  // A cancel puts the node back to AVAILABLE: its LOCKED outcome is unreachable.
  lemma CancelResearchSound(w: World, key: NodeKey, job: Id, tick: int)
    requires ResearchSound(w) && CancelResearch(w, key, job, tick).Done?
    ensures ResearchGrows(w, CancelResearch(w, key, job, tick).world)
    ensures ResearchSound(CancelResearch(w, key, job, tick).world)
    ensures CancelResearch(w, key, job, tick).world.research[key] == Available
  {
    var next := CancelResearch(w, key, job, tick).world;
    assert HasRunningJob(w.researchJobs, key);
    assert StoredStatus(w, key).Researching?;
    assert PrerequisitesMet(w, key);
    assert ResearchGrows(w, next);
    forall k | k in next.research ensures !next.research[k].Locked? && PrerequisitesMet(next, k) {
      PrerequisitesStayMet(w, next, k);
    }
    EndedAgrees(w, next, key, job, Available);
  }

  lemma CompleteOneSound(w: World, id: Id, tick: int)
    requires ResearchSound(w)
    ensures ResearchGrows(w, CompleteOne(w, id, tick)) && ResearchSound(CompleteOne(w, id, tick))
  {
    if id in w.researchJobs && w.researchJobs[id].status.Running? && w.researchJobs[id].completes <= tick {
      var next := CompleteOne(w, id, tick);
      var key := w.researchJobs[id].key;
      assert IsRunning(w.researchJobs, id, key) && HasRunningJob(w.researchJobs, key);
      assert StoredStatus(w, key).Researching?;
      assert ResearchGrows(w, next);
      forall k | k in next.research ensures !next.research[k].Locked? && PrerequisitesMet(next, k) {
        PrerequisitesStayMet(w, next, k);
      }
      EndedAgrees(w, next, key, id, Completed);
    }
  }

  // The stored status of every row is the status the listing derives.
  lemma StoredStatusIsListed(w: World, key: NodeKey)
    requires ResearchSound(w) && key in w.research
    ensures Listed(w, key) == w.research[key]
  {
    CompletedMember(w, key);
    assert StoredStatus(w, key).Researching? <==> HasRunningJob(w.researchJobs, key);
  }

  // A node is startable for a company that can pay exactly when the listing calls it AVAILABLE.
  lemma AvailableIsStartable(w: World, key: NodeKey, id: Id, tick: nat)
    requires ResearchSound(w) && Researchable(w, key.company) && key.node in w.catalogue.nodes && id !in w.researchJobs
    requires w.catalogue.nodes[key.node].cost <= w.companies[key.company].cash
    requires Payroll.ValidWorkforce(w.companies[key.company].workforce) && w.catalogue.nodes[key.node].duration >= 0
    ensures StartResearch(w, key, id, tick).Done? <==> Listed(w, key) == Available
  {
    CompletedMember(w, key);
    assert StoredStatus(w, key).Researching? <==> HasRunningJob(w.researchJobs, key);
  }

}
