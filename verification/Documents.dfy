/** Every job document ever stored agrees with its steps, in every interleaving. */
module Documents {
  import opened Money
  import opened Domain
  import opened Settlement
  import opened Protocol
  import JobRun
  import Reconciler
  import P = Platform

  /** A worker that has not begun spending holds the document as it read it. */
  predicate HoldsStored(w: Worker) {
    w.pc.Loading? || w.pc.Loaded?
  }

  ghost predicate DocsAddUp(s: State) {
    && (forall j :: j in s.jobs ==> AddsUp(s.jobs[j]))
    && (forall w :: w in s.workers && HoldsStored(s.workers[w]) ==> AddsUp(s.workers[w].job))
  }

  /** Whatever one statement stores adds up, and nobody new holds a document as read. */
  ghost predicate StoresWhatAddsUp(s: State, t: State) {
    && (forall j :: j in t.jobs ==> (j in s.jobs && t.jobs[j] == s.jobs[j]) || AddsUp(t.jobs[j]))
    && (forall w :: w in t.workers && HoldsStored(t.workers[w]) ==>
          (w in s.workers && t.workers[w] == s.workers[w]) || AddsUp(t.workers[w].job))
  }

  lemma JobStores(s: State, a: Action)
    requires DocsAddUp(s) && (a.Load? || a.Stop? || a.Start? || a.Save? || a.Finish? || a.Vanish?)
    ensures StoresWhatAddsUp(s, ApplyJob(s, a))
  {
    if a.w in s.workers {
      var w := s.workers[a.w];
      if a.Stop? && w.pc.Loaded? {
        JobRun.AbortSpendsNothing(w.job, a.blockers);
      } else if a.Load? && w.job.jobId in s.jobs {
        assert AddsUp(s.jobs[w.job.jobId].(status := JobStatus.Running));
      }
    }
  }

  lemma BeginStores(s: State, a: Action)
    requires a.Begin?
    ensures StoresWhatAddsUp(s, ApplyBegin(s, a))
  {
  }

  lemma SkipStores(s: State, a: Action)
    requires a.Skip?
    ensures StoresWhatAddsUp(s, ApplySkip(s, a))
  {
  }

  /** A claim the ledger refuses: the document is saved with its total, the worker leaves. */
  lemma RefusalStores(s: State, me: WorkerId, job: Job)
    ensures StoresWhatAddsUp(s, Gone(Saved(s, job), me))
  {
  }

  lemma ReadStores(s: State, a: Action)
    requires a.Read? || a.Insert?
    ensures StoresWhatAddsUp(s, ApplyClaimStep(s, a))
  {
    var t := ApplyClaimStep(s, a);
    if a.w in s.workers {
      RefusalStores(s, a.w, s.workers[a.w].job);
      if t != s && a.w in t.workers {
        StepOnly(s, t, a.w);
      }
    }
  }

  lemma DecideStores(s: State, a: Action)
    requires a.Reread? || a.Decide?
    ensures StoresWhatAddsUp(s, ApplyClaimStep(s, a))
  {
    var t := ApplyClaimStep(s, a);
    if t != s {
      StepOnly(s, t, a.w);
    }
  }

  lemma LaunchStores(s: State, a: Action)
    requires a.Send? || a.Receive? || a.Resend? || a.GiveUp?
    ensures StoresWhatAddsUp(s, ApplyLaunch(s, a))
  {
  }

  lemma RecordStores(s: State, a: Action)
    requires a.Record?
    ensures StoresWhatAddsUp(s, ApplySettle(s, a))
  {
    var t := ApplySettle(s, a);
    if t != s {
      StepOnly(s, t, a.w);
    }
  }

  /** A worker past the start changes its own copy and no stored document. */
  lemma StepOnly(s: State, t: State, me: WorkerId)
    requires t.jobs == s.jobs && me in t.workers && t.workers == s.workers[me := t.workers[me]]
             && !HoldsStored(t.workers[me])
    ensures StoresWhatAddsUp(s, t)
  {
  }

  lemma SettleStores(s: State, a: Action)
    requires a.Settle? || a.Expire? || a.Fault?
    ensures StoresWhatAddsUp(s, ApplySettle(s, a))
  {
  }

  lemma ClaimStores(s: State, me: WorkerId, jobId: JobId)
    requires DocsAddUp(s)
    ensures StoresWhatAddsUp(s, ApplyClaim(s, me, jobId))
  {
    if jobId in s.jobs {
      assert AddsUp(s.jobs[jobId].(status := JobStatus.Running));
    }
  }

  lemma WebhookStores(c: P.Config, s: State, a: Action)
    requires DocsAddUp(s) && a.Webhook?
    ensures StoresWhatAddsUp(s, ApplyOutside(c, s, a))
  {
    if a.at in s.rows && s.rows[a.at].jobId in s.jobs {
      WebhookIsSafe(s.jobs[s.rows[a.at].jobId], a.at.1, a.v);
    }
  }

  lemma ReconcileStores(c: P.Config, s: State, a: Action)
    requires DocsAddUp(s) && a.Reconcile?
    ensures StoresWhatAddsUp(s, ApplyOutside(c, s, a))
  {
    var st := Reconciler.Store(s.jobs, s.rows, map[]);
    if Reconciler.StepAt(st, a.at).Some? {
      Reconciler.ReconciledKeeps(s.jobs[s.rows[a.at].jobId], Reconciler.StepAt(st, a.at).value, a.v, a.at.1);
    }
  }

  lemma OutsideStores(c: P.Config, s: State, a: Action)
    requires DocsAddUp(s)
    requires a.Admit? || a.Serve? || a.Crash? || a.Requeue? || a.Webhook? || a.Reconcile? || a.AskStatus?
    ensures StoresWhatAddsUp(s, ApplyOutside(c, s, a))
  {
    match a {
      case Admit(jobId, plan, now) =>
        SumOfZeros(Costs(JobRun.NewSteps(plan.steps)));
      case Requeue(jobId) =>
        if jobId in s.jobs {
          assert AddsUp(s.jobs[jobId].(status := JobStatus.Queued));
        }
      case Webhook(_, _) => WebhookStores(c, s, a);
      case Reconcile(_, _) => ReconcileStores(c, s, a);
      case Serve(_) =>
      case Crash =>
      case AskStatus(_) =>
    }
  }

  lemma ApplyStores(c: P.Config, s: State, a: Action)
    requires DocsAddUp(s)
    ensures DocsAddUp(Apply(c, s, a))
  {
    if a.Claim? {
      ClaimStores(s, a.w, a.jobId);
    } else if a.Load? || a.Stop? || a.Start? || a.Save? || a.Finish? || a.Vanish? {
      JobStores(s, a);
    } else if a.Begin? {
      BeginStores(s, a);
    } else if a.Skip? {
      SkipStores(s, a);
    } else if a.Read? || a.Insert? || a.Reread? || a.Decide? {
      if a.Read? || a.Insert? {
        ReadStores(s, a);
      } else {
        DecideStores(s, a);
      }
    } else if a.Send? || a.Receive? || a.Resend? || a.GiveUp? {
      LaunchStores(s, a);
    } else if a.Record? {
      RecordStores(s, a);
    } else if a.Settle? || a.Expire? || a.Fault? {
      SettleStores(s, a);
    } else {
      OutsideStores(c, s, a);
    }
    StoredAddsUp(s, Apply(c, s, a));
  }

  lemma StoredAddsUp(s: State, t: State)
    requires DocsAddUp(s) && StoresWhatAddsUp(s, t)
    ensures DocsAddUp(t)
  {
  }

  /** Every job document ever stored, by executor, abort, callback, sweep or recovery, in
      every interleaving, costs what its steps cost. */
  lemma {:induction false} EveryDocumentAddsUp(c: P.Config, balance: int, spentToday: int, actions: seq<Action>)
    ensures DocsAddUp(Run(c, Initial(balance, spentToday), actions))
  {
    if actions != [] {
      EveryDocumentAddsUp(c, balance, spentToday, actions[..|actions| - 1]);
      ApplyStores(c, Run(c, Initial(balance, spentToday), actions[..|actions| - 1]), actions[|actions| - 1]);
    }
  }
}
