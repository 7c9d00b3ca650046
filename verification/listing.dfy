/** The order in which the build planner runs its jobs, stated independently of
    the planner's nested loop (server/procBuilder.go, procBuilder.Build): a flat
    listing of (document, axis) jobs, documents in name order and each
    document's axes in matrix order, and the PID each job runs at, which is the
    first PID plus the number of earlier jobs that produced an item. The plan is
    shown to be exactly that listing run job by job, then pruned. */
module Listing {
  import opened Wrappers
  import opened Model
  import opened DocOrder
  import opened Dependencies
  import opened Planner

  /** One job of a plan: a document and one of its matrix axes. */
  datatype JobRef = JobRef(doc: Document, axis: Env)

  /** The jobs of one document, one per axis, in axis order. */
  function DocJobs(doc: Document, axes: seq<Env>): (r: seq<JobRef>)
    ensures |r| == |axes|
    ensures forall j :: 0 <= j < |axes| ==> r[j] == JobRef(doc, axes[j])
  {
    if |axes| == 0 then [] else [JobRef(doc, axes[0])] + DocJobs(doc, axes[1..])
  }

  /** The jobs of the documents, each document's jobs in turn, given each
      document's axes. */
  function FlatJobs(docs: seq<Document>, axess: seq<seq<Env>>): (r: seq<JobRef>)
    requires |axess| == |docs|
    ensures forall k :: 0 <= k < |r| ==> r[k].doc in docs
    decreases |docs|
  {
    if |docs| == 0 then []
    else
      var rest := FlatJobs(docs[1..], axess[1..]);
      assert forall k :: 0 <= k < |rest| ==> rest[k].doc in docs;
      DocJobs(docs[0], axess[0]) + rest
  }

  /** The matrix axes of each document, in document order; the first matrix that
      does not parse fails the whole. */
  function AxesOf(col: Collaborators, docs: seq<Document>): (r: Result<seq<seq<Env>>>)
    ensures r.Success? <==> forall d :: d in docs ==> JobAxes(col, d).Success?
    ensures r.Success? ==> |r.value| == |docs| && forall m :: 0 <= m < |docs| ==> r.value[m] == JobAxes(col, docs[m]).value
    decreases |docs|
  {
    if |docs| == 0 then Success([])
    else
      assert forall d :: d in docs <==> d == docs[0] || d in docs[1..];
      var axes :- JobAxes(col, docs[0]);
      var rest :- AxesOf(col, docs[1..]);
      assert forall m :: 1 <= m < |docs| ==> docs[1..][m - 1] == docs[m];
      Success([axes] + rest)
  }

  /** The jobs of all documents, each document's jobs in turn, in axis order. */
  function JobListing(col: Collaborators, docs: seq<Document>): Result<seq<JobRef>> {
    var axess :- AxesOf(col, docs);
    Success(FlatJobs(docs, axess))
  }

  /** The jobs of a planning run: its documents in name order. */
  function PlanJobs(ctx: Context, col: Collaborators): Result<seq<JobRef>> {
    JobListing(col, SortByName(ctx.yamls))
  }

  /** A job outcome that is an item. */
  predicate Produced(o: Result<Option<Item>>) {
    o.Success? && o.value.Some?
  }

  /** The PID job `k` of the listing runs at: `start` plus the number of earlier
      jobs that produced an item. */
  function PidAt(job: JobCompiler, jobs: seq<JobRef>, start: int, k: int): int
    requires 0 <= k <= |jobs|
    decreases k
  {
    if k == 0 then start
    else
      var p := PidAt(job, jobs, start, k - 1);
      if Produced(job(jobs[k - 1].doc, jobs[k - 1].axis, p)) then p + 1 else p
  }

  /** The outcome of job `k` of the listing, run at its PID. */
  function Outcome(job: JobCompiler, jobs: seq<JobRef>, start: int, k: int): Result<Option<Item>>
    requires 0 <= k < |jobs|
  {
    job(jobs[k].doc, jobs[k].axis, PidAt(job, jobs, start, k))
  }

  /** The items the first `k` jobs produce, in listing order: as many as the PIDs
      used up so far. */
  function KeptItems(job: JobCompiler, jobs: seq<JobRef>, start: int, k: int): (r: seq<Item>)
    requires 0 <= k <= |jobs|
    ensures |r| == PidAt(job, jobs, start, k) - start
    decreases k
  {
    if k == 0 then []
    else
      var o := Outcome(job, jobs, start, k - 1);
      KeptItems(job, jobs, start, k - 1) + (if Produced(o) then [o.value.value] else [])
  }

  /** Every job among `jobs[lo..hi]` ran without error at its PID. */
  ghost predicate RanCleanly(job: JobCompiler, jobs: seq<JobRef>, start: int, lo: int, hi: int)
    requires 0 <= lo <= hi <= |jobs|
  {
    forall k :: lo <= k < hi ==> Outcome(job, jobs, start, k).Success?
  }

  /** `r` is what running `jobs[lo..hi]` gives after `jobs[..lo]`: a success
      exactly when each of those jobs succeeds at its PID, holding then the items
      of `jobs[..hi]`. */
  ghost predicate RunsAsListed(r: Result<seq<Item>>, job: JobCompiler, jobs: seq<JobRef>, start: int, lo: int, hi: int)
    requires 0 <= lo <= hi <= |jobs|
  {
    && (r.Success? <==> RanCleanly(job, jobs, start, lo, hi))
    && (r.Success? ==> r.value == KeptItems(job, jobs, start, hi))
  }

  /** With documents in name order, the jobs never go back to a smaller name. */
  lemma {:induction false} FlatJobsInNameOrder(docs: seq<Document>, axess: seq<seq<Env>>)
    requires |axess| == |docs| && SortedByName(docs)
    ensures forall k1, k2 :: 0 <= k1 < k2 < |FlatJobs(docs, axess)| ==>
              NotAfter(FlatJobs(docs, axess)[k1].doc.name, FlatJobs(docs, axess)[k2].doc.name)
    decreases |docs|
  {
    if |docs| > 0 {
      var r := FlatJobs(docs, axess);
      FlatJobsInNameOrder(docs[1..], axess[1..]);
      forall k1, k2 | 0 <= k1 < k2 < |r|
        ensures NotAfter(r[k1].doc.name, r[k2].doc.name)
      {
        FlatJobsPairInNameOrder(docs, axess, k1, k2);
      }
    }
  }

  /** One pair of jobs of the flat listing, given that the listing of the later
      documents is in name order. */
  lemma FlatJobsPairInNameOrder(docs: seq<Document>, axess: seq<seq<Env>>, k1: int, k2: int)
    requires |axess| == |docs| && |docs| > 0 && SortedByName(docs)
    requires 0 <= k1 < k2 < |FlatJobs(docs, axess)|
    requires forall k1, k2 :: 0 <= k1 < k2 < |FlatJobs(docs[1..], axess[1..])| ==>
               NotAfter(FlatJobs(docs[1..], axess[1..])[k1].doc.name, FlatJobs(docs[1..], axess[1..])[k2].doc.name)
    ensures NotAfter(FlatJobs(docs, axess)[k1].doc.name, FlatJobs(docs, axess)[k2].doc.name)
  {
    var r := FlatJobs(docs, axess);
    var own := DocJobs(docs[0], axess[0]);
    var rest := FlatJobs(docs[1..], axess[1..]);
    assert r == own + rest;
    if k1 < |own| {
      assert r[k1] == own[k1];
      if k2 < |own| {
        assert r[k2] == own[k2];
        LessIrreflexive(docs[0].name);
      } else {
        assert r[k2] == rest[k2 - |own|];
        var m :| 0 <= m < |docs[1..]| && docs[1..][m] == r[k2].doc;
        assert docs[m + 1] == r[k2].doc;
      }
    } else {
      assert r[k1] == rest[k1 - |own|] && r[k2] == rest[k2 - |own|];
    }
  }

  /** With documents in name order, the listing never goes back to a smaller name. */
  lemma {:induction false} ListingInNameOrder(col: Collaborators, docs: seq<Document>)
    requires SortedByName(docs)
    ensures JobListing(col, docs).Success? ==> forall k1, k2 :: 0 <= k1 < k2 < |JobListing(col, docs).value| ==>
              NotAfter(JobListing(col, docs).value[k1].doc.name, JobListing(col, docs).value[k2].doc.name)
  {
    var axess := AxesOf(col, docs);
    if axess.Success? {
      FlatJobsInNameOrder(docs, axess.value);
    }
  }

  /** The jobs of `doc`, one per axis in axis order, sit at position `o` of `jobs`. */
  ghost predicate HoldsDocJobs(jobs: seq<JobRef>, o: int, doc: Document, axes: seq<Env>) {
    0 <= o && o + |axes| <= |jobs| && forall j :: 0 <= j < |axes| ==> jobs[o + j] == JobRef(doc, axes[j])
  }

  lemma HoldsInFront(own: seq<JobRef>, rest: seq<JobRef>, doc: Document, axes: seq<Env>)
    requires own == DocJobs(doc, axes)
    ensures HoldsDocJobs(own + rest, 0, doc, axes)
  {
    forall j | 0 <= j < |axes|
      ensures (own + rest)[0 + j] == JobRef(doc, axes[j])
    {
      assert (own + rest)[j] == own[j];
    }
  }

  lemma HoldsBehind(own: seq<JobRef>, rest: seq<JobRef>, o: int, doc: Document, axes: seq<Env>)
    requires HoldsDocJobs(rest, o, doc, axes)
    ensures HoldsDocJobs(own + rest, |own| + o, doc, axes)
  {
    forall j | 0 <= j < |axes|
      ensures (own + rest)[|own| + o + j] == JobRef(doc, axes[j])
    {
      assert (own + rest)[|own| + o + j] == rest[o + j];
    }
  }

  /** Where the jobs of document `m` begin: the number of jobs of the documents
      before it. */
  function DocOffset(axess: seq<seq<Env>>, m: int): (o: int)
    requires 0 <= m <= |axess|
    ensures o >= 0
    decreases m
  {
    if m == 0 then 0 else |axess[0]| + DocOffset(axess[1..], m - 1)
  }

  /** Each document's jobs sit together, in the order of its axes, after the jobs
      of the documents before it. */
  lemma {:induction false} FlatJobsGroupDocuments(docs: seq<Document>, axess: seq<seq<Env>>, m: int)
    requires |axess| == |docs| && 0 <= m < |docs|
    ensures HoldsDocJobs(FlatJobs(docs, axess), DocOffset(axess, m), docs[m], axess[m])
    decreases m
  {
    var own := DocJobs(docs[0], axess[0]);
    var rest := FlatJobs(docs[1..], axess[1..]);
    assert FlatJobs(docs, axess) == own + rest;
    if m == 0 {
      HoldsInFront(own, rest, docs[0], axess[0]);
    } else {
      FlatJobsGroupDocuments(docs[1..], axess[1..], m - 1);
      assert docs[1..][m - 1] == docs[m] && axess[1..][m - 1] == axess[m];
      HoldsBehind(own, rest, DocOffset(axess[1..], m - 1), docs[m], axess[m]);
    }
  }

  /** Axis `j` of document `m` is a job of the flat listing. */
  lemma FlatJobsHoldJob(docs: seq<Document>, axess: seq<seq<Env>>, m: int, j: int)
    requires |axess| == |docs| && 0 <= m < |docs| && 0 <= j < |axess[m]|
    ensures exists k :: 0 <= k < |FlatJobs(docs, axess)| && FlatJobs(docs, axess)[k] == JobRef(docs[m], axess[m][j])
  {
    FlatJobsGroupDocuments(docs, axess, m);
    assert FlatJobs(docs, axess)[DocOffset(axess, m) + j] == JobRef(docs[m], axess[m][j]);
  }

  /** Every axis of every document is a job of the listing. */
  lemma ListingHoldsEveryJob(col: Collaborators, docs: seq<Document>)
    ensures JobListing(col, docs).Success? ==>
              forall d :: d in docs ==>
                && JobAxes(col, d).Success?
                && forall a :: a in JobAxes(col, d).value ==>
                     exists k :: 0 <= k < |JobListing(col, docs).value| && JobListing(col, docs).value[k] == JobRef(d, a)
  {
    if JobListing(col, docs).Success? {
      var axess := AxesOf(col, docs).value;
      var l := JobListing(col, docs).value;
      assert l == FlatJobs(docs, axess);
      forall d, a | d in docs && a in JobAxes(col, d).value
        ensures exists k :: 0 <= k < |l| && l[k] == JobRef(d, a)
      {
        var m :| 0 <= m < |docs| && docs[m] == d;
        var j :| 0 <= j < |axess[m]| && axess[m][j] == a;
        FlatJobsHoldJob(docs, axess, m, j);
      }
    }
  }

  /** PIDs never go down along the listing, and go up past every job that produced
      an item. */
  lemma {:induction false} PidAtIncreases(job: JobCompiler, jobs: seq<JobRef>, start: int, k1: int, k2: int)
    requires 0 <= k1 <= k2 <= |jobs|
    ensures PidAt(job, jobs, start, k1) <= PidAt(job, jobs, start, k2)
    ensures k1 < k2 && Produced(Outcome(job, jobs, start, k1)) ==>
              PidAt(job, jobs, start, k1) < PidAt(job, jobs, start, k2)
    decreases k2
  {
    if k1 < k2 {
      PidAtIncreases(job, jobs, start, k1, k2 - 1);
    }
  }

  /** The item of job `k`, when it has one, is the kept item at position
      `PidAt(k) - start`: exactly the number of earlier jobs that produced one. */
  lemma {:induction false} KeptItemAt(job: JobCompiler, jobs: seq<JobRef>, start: int, k: int, n: int)
    requires 0 <= k < n <= |jobs| && Produced(Outcome(job, jobs, start, k))
    ensures var i := PidAt(job, jobs, start, k) - start;
            0 <= i < |KeptItems(job, jobs, start, n)|
            && KeptItems(job, jobs, start, n)[i] == Outcome(job, jobs, start, k).value.value
    decreases n
  {
    PidAtIncreases(job, jobs, start, 0, k);
    if n > k + 1 {
      KeptItemAt(job, jobs, start, k, n - 1);
    }
  }

  /** Every kept item is the item of some job, at the position its PID gives it. */
  lemma {:induction false} KeptItemOrigin(job: JobCompiler, jobs: seq<JobRef>, start: int, n: int, i: int)
    requires 0 <= n <= |jobs| && 0 <= i < |KeptItems(job, jobs, start, n)|
    ensures exists k :: 0 <= k < n && Produced(Outcome(job, jobs, start, k))
                        && PidAt(job, jobs, start, k) == start + i
                        && KeptItems(job, jobs, start, n)[i] == Outcome(job, jobs, start, k).value.value
    decreases n
  {
    if i < |KeptItems(job, jobs, start, n - 1)| {
      KeptItemOrigin(job, jobs, start, n - 1, i);
      var k :| 0 <= k < n - 1 && Produced(Outcome(job, jobs, start, k))
               && PidAt(job, jobs, start, k) == start + i
               && KeptItems(job, jobs, start, n - 1)[i] == Outcome(job, jobs, start, k).value.value;
      assert KeptItems(job, jobs, start, n)[i] == KeptItems(job, jobs, start, n - 1)[i];
    } else {
      assert Produced(Outcome(job, jobs, start, n - 1));
    }
  }

  /** Runs `jobs` one after another from `pid`, appending the items they produce
      to `items`; the first error aborts the run. */
  function RunJobs(job: JobCompiler, jobs: seq<JobRef>, pid: int, items: seq<Item>): Result<seq<Item>>
    decreases |jobs|
  {
    if |jobs| == 0 then Success(items)
    else
      var compiled :- job(jobs[0].doc, jobs[0].axis, pid);
      if compiled.Some? then RunJobs(job, jobs[1..], pid + 1, items + [compiled.value])
      else RunJobs(job, jobs[1..], pid, items)
  }

  /** The enumeration of one document's axes runs that document's jobs. */
  lemma {:induction false} EnumerateAxesRunsJobs(job: JobCompiler, doc: Document, axes: seq<Env>, pid: int, items: seq<Item>)
    ensures EnumerateAxes(job, doc, axes, pid, items) == RunJobs(job, DocJobs(doc, axes), pid, items)
    decreases |axes|
  {
    if |axes| > 0 {
      assert DocJobs(doc, axes)[1..] == DocJobs(doc, axes[1..]);
      var o := job(doc, axes[0], pid);
      if o.Success? {
        if o.value.Some? {
          EnumerateAxesRunsJobs(job, doc, axes[1..], pid + 1, items + [o.value.value]);
        } else {
          EnumerateAxesRunsJobs(job, doc, axes[1..], pid, items);
        }
      }
    }
  }

  /** Running two lists of jobs back to back: the second list starts at the PID
      and with the items the first one leaves, unless the first one fails. */
  lemma {:induction false} RunJobsAppend(job: JobCompiler, a: seq<JobRef>, b: seq<JobRef>, pid: int, items: seq<Item>)
    ensures RunJobs(job, a, pid, items).Failure? ==> RunJobs(job, a + b, pid, items) == RunJobs(job, a, pid, items)
    ensures RunJobs(job, a, pid, items).Success? ==>
              && |items| <= |RunJobs(job, a, pid, items).value|
              && RunJobs(job, a + b, pid, items)
                 == RunJobs(job, b, pid + (|RunJobs(job, a, pid, items).value| - |items|), RunJobs(job, a, pid, items).value)
    decreases |a|
  {
    if |a| == 0 {
      assert a + b == b;
    } else {
      assert (a + b)[0] == a[0];
      assert (a + b)[1..] == a[1..] + b;
      var o := job(a[0].doc, a[0].axis, pid);
      if o.Success? {
        if o.value.Some? {
          RunJobsAppend(job, a[1..], b, pid + 1, items + [o.value.value]);
        } else {
          RunJobsAppend(job, a[1..], b, pid, items);
        }
      }
    }
  }

  /** `axess` holds the matrix axes of each of `docs`, in order. */
  ghost predicate AxesAre(col: Collaborators, docs: seq<Document>, axess: seq<seq<Env>>)
    decreases |docs|
  {
    && |axess| == |docs|
    && (|docs| > 0 ==> JobAxes(col, docs[0]) == Success(axess[0]) && AxesAre(col, docs[1..], axess[1..]))
  }

  lemma {:induction false} AxesOfAre(col: Collaborators, docs: seq<Document>)
    requires AxesOf(col, docs).Success?
    ensures AxesAre(col, docs, AxesOf(col, docs).value)
    decreases |docs|
  {
    if |docs| > 0 {
      AxesOfAre(col, docs[1..]);
      assert AxesOf(col, docs).value[1..] == AxesOf(col, docs[1..]).value;
    }
  }

  /** The enumeration of documents whose matrices parse runs their flat listing. */
  lemma {:induction false} EnumerateDocsRunsJobs(col: Collaborators, job: JobCompiler, docs: seq<Document>, axess: seq<seq<Env>>,
                                                 pid: int, items: seq<Item>)
    requires AxesAre(col, docs, axess)
    ensures EnumerateDocs(col, job, docs, pid, items) == RunJobs(job, FlatJobs(docs, axess), pid, items)
    decreases |docs|
  {
    if |docs| > 0 {
      var own := DocJobs(docs[0], axess[0]);
      var rest := FlatJobs(docs[1..], axess[1..]);
      assert FlatJobs(docs, axess) == own + rest;
      EnumerateAxesRunsJobs(job, docs[0], axess[0], pid, items);
      RunJobsAppend(job, own, rest, pid, items);
      var next := EnumerateAxes(job, docs[0], axess[0], pid, items);
      if next.Success? {
        EnumerateDocsRunsJobs(col, job, docs[1..], axess[1..], pid + (|next.value| - |items|), next.value);
      }
    }
  }

  /** The jobs of a listing from position `i` on, run from the PID and with the
      items the earlier jobs leave, run as the listing says. */
  lemma {:induction false} RunJobsAsListed(job: JobCompiler, jobs: seq<JobRef>, start: int, i: int)
    requires 0 <= i <= |jobs|
    ensures RunsAsListed(RunJobs(job, jobs[i..], PidAt(job, jobs, start, i), KeptItems(job, jobs, start, i)),
                         job, jobs, start, i, |jobs|)
    decreases |jobs| - i
  {
    if i < |jobs| {
      var p := PidAt(job, jobs, start, i);
      var items := KeptItems(job, jobs, start, i);
      var o := Outcome(job, jobs, start, i);
      assert jobs[i..][0] == jobs[i];
      assert jobs[i..][1..] == jobs[i + 1..];
      if o.Success? {
        RunJobsAsListed(job, jobs, start, i + 1);
        var rest := RunJobs(job, jobs[i + 1..], PidAt(job, jobs, start, i + 1), KeptItems(job, jobs, start, i + 1));
        if o.value.Some? {
          assert RunJobs(job, jobs[i..], p, items) == rest;
        } else {
          assert KeptItems(job, jobs, start, i + 1) == items;
          assert RunJobs(job, jobs[i..], p, items) == rest;
        }
        assert RanCleanly(job, jobs, start, i, |jobs|) <==> RanCleanly(job, jobs, start, i + 1, |jobs|);
      } else {
        assert !RanCleanly(job, jobs, start, i, |jobs|);
      }
    }
  }

  /** A document whose matrix does not parse makes the enumeration fail, whatever
      ran before it. */
  lemma {:induction false} EnumerateDocsFailsOnMatrix(col: Collaborators, job: JobCompiler, docs: seq<Document>, pid: int, items: seq<Item>)
    requires JobListing(col, docs).Failure?
    ensures EnumerateDocs(col, job, docs, pid, items).Failure?
    decreases |docs|
  {
    var axes := JobAxes(col, docs[0]);
    if axes.Success? {
      var next := EnumerateAxes(job, docs[0], axes.value, pid, items);
      if next.Success? {
        EnumerateDocsFailsOnMatrix(col, job, docs[1..], pid + (|next.value| - |items|), next.value);
      }
    }
  }

  /** Runs the whole listing from PID 1: the enumeration of the sorted documents is
      the listing run job by job. */
  lemma PlanRunsListing(ctx: Context, col: Collaborators)
    ensures var all := EnumerateDocs(col, JobsOf(ctx, col), SortByName(ctx.yamls), 1, []);
            var l := PlanJobs(ctx, col);
            && (all.Success? <==> l.Success? && RanCleanly(JobsOf(ctx, col), l.value, 1, 0, |l.value|))
            && (all.Success? ==> all.value == KeptItems(JobsOf(ctx, col), l.value, 1, |l.value|))
  {
    var docs := SortByName(ctx.yamls);
    var l := JobListing(col, docs);
    if l.Success? {
      AxesOfAre(col, docs);
      EnumerateDocsRunsJobs(col, JobsOf(ctx, col), docs, AxesOf(col, docs).value, 1, []);
      RunJobsAsListed(JobsOf(ctx, col), l.value, 1, 0);
      assert l.value[0..] == l.value;
    } else {
      EnumerateDocsFailsOnMatrix(col, JobsOf(ctx, col), docs, 1, []);
    }
  }

  /** The plan succeeds exactly when every document's matrix parses and every job
      of the listing succeeds at the PID the listing assigns it; any other error
      aborts the whole plan. */
  lemma PlanSucceedsExactlyWhenJobsDo(ctx: Context, col: Collaborators)
    ensures var l := PlanJobs(ctx, col);
            && (l.Success? <==> forall d :: d in ctx.yamls ==> col.parseMatrix(d.data).Success?)
            && (BuildItems(ctx, col).Success? <==>
                  l.Success? && forall k :: 0 <= k < |l.value| ==> Outcome(JobsOf(ctx, col), l.value, 1, k).Success?)
  {
    var docs := SortByName(ctx.yamls);
    assert forall d :: d in docs <==> d in ctx.yamls by {
      assert forall d :: d in docs <==> d in multiset(docs);
    }
    PlanRunsListing(ctx, col);
  }

  /** The plan is the items of the listing's jobs, in listing order, each numbered
      by its PID, with items whose dependencies are missing pruned. */
  lemma PlanIsPrunedListing(ctx: Context, col: Collaborators)
    ensures var r := BuildItems(ctx, col);
            var l := PlanJobs(ctx, col);
            r.Success? ==> l.Success? && r.value == Prune(KeptItems(JobsOf(ctx, col), l.value, 1, |l.value|))
  {
    PlanRunsListing(ctx, col);
  }

  /** Along a successful plan's listing, documents come in name order, and of two
      jobs that produced an item the earlier one has the smaller PID. */
  lemma PlanFollowsListing(ctx: Context, col: Collaborators)
    ensures var l := PlanJobs(ctx, col);
            var job := JobsOf(ctx, col);
            BuildItems(ctx, col).Success? ==>
              && l.Success?
              && (forall k1, k2 :: 0 <= k1 < k2 < |l.value| ==> NotAfter(l.value[k1].doc.name, l.value[k2].doc.name))
              && (forall k :: 0 <= k < |l.value| && Produced(Outcome(job, l.value, 1, k)) ==>
                    Outcome(job, l.value, 1, k).value.value.proc.pid == PidAt(job, l.value, 1, k))
              && (forall k1, k2 :: 0 <= k1 < k2 < |l.value| && Produced(Outcome(job, l.value, 1, k1)) ==>
                    PidAt(job, l.value, 1, k1) < PidAt(job, l.value, 1, k2))
  {
    var l := PlanJobs(ctx, col);
    var job := JobsOf(ctx, col);
    if BuildItems(ctx, col).Success? {
      PlanRunsListing(ctx, col);
      ListingInNameOrder(col, SortByName(ctx.yamls));
      JobsOfNumbersItems(ctx, col);
      forall k1, k2 | 0 <= k1 < k2 < |l.value| && Produced(Outcome(job, l.value, 1, k1))
        ensures PidAt(job, l.value, 1, k1) < PidAt(job, l.value, 1, k2)
      {
        PidAtIncreases(job, l.value, 1, k1, k2);
      }
    }
  }

  /** A job outcome that is not an error and whose item, if any, is in `plan`
      unless no item of `plan` carries its name. */
  ghost predicate KeptUnlessNamePruned(o: Result<Option<Item>>, plan: seq<Item>) {
    o.Success? && (o.value.Some? && o.value.value.proc.name in Names(plan) ==> o.value.value in plan)
  }

  /** A successful plan ran every job of every document, each at the PID the
      listing assigns it, without error; the item such a job produced is missing
      from the plan only when pruning removed its whole name, every matrix leg of
      its document with it. */
  lemma PlanCoversEveryJob(ctx: Context, col: Collaborators)
    ensures var r := BuildItems(ctx, col);
            var l := PlanJobs(ctx, col);
            r.Success? ==>
              && l.Success?
              && (forall d :: d in ctx.yamls ==>
                    && JobAxes(col, d).Success?
                    && forall a :: a in JobAxes(col, d).value ==>
                         exists k :: 0 <= k < |l.value| && l.value[k] == JobRef(d, a))
              && forall k :: 0 <= k < |l.value| ==> KeptUnlessNamePruned(Outcome(JobsOf(ctx, col), l.value, 1, k), r.value)
  {
    var r := BuildItems(ctx, col);
    var l := PlanJobs(ctx, col);
    var job := JobsOf(ctx, col);
    var docs := SortByName(ctx.yamls);
    if r.Success? {
      PlanSucceedsExactlyWhenJobsDo(ctx, col);
      PlanIsPrunedListing(ctx, col);
      ListingHoldsEveryJob(col, docs);
      assert forall d :: d in ctx.yamls ==> d in docs by {
        assert forall d :: d in docs <==> d in multiset(docs);
      }
      var kept := KeptItems(job, l.value, 1, |l.value|);
      PruneRestrictsByName(kept);
      forall k | 0 <= k < |l.value|
        ensures KeptUnlessNamePruned(Outcome(job, l.value, 1, k), r.value)
      {
        if Produced(Outcome(job, l.value, 1, k)) {
          KeptItemAt(job, l.value, 1, k, |l.value|);
        }
      }
    }
  }
}
