/** The one-shot upload of local mail to JMAP accounts, for real or as a dry run. */
module UploadRun {
  import opened Wrappers
  import opened Matching
  import opened UploadForecast
  import MailWorld

  datatype Problem = Failed | QuotaExceeded | NotJmap | UnknownAccount

  /** How a loop ended. */
  datatype Status = Done | LimitReached | Broken(problem: Problem)

  /** Retired duplicates by the way they matched. */
  datatype Ways = Ways(exact: nat, messageId: nat, header: nat) {
    function Plus(w: Ways): (r: Ways) {
      Ways(exact + w.exact, messageId + w.messageId, header + w.header)
    }
  }

  datatype Summary = Summary(
    uploaded: nat, adopted: nat, elsewhere: nat, ambiguous: nat,
    duplicates: nat, ways: Ways, skipped: nat, limitReached: bool)
  {
    /** Every skipped file has one reason, every duplicate one way of matching. */
    predicate Balanced() {
      skipped == elsewhere + ambiguous + duplicates && duplicates == ways.exact + ways.messageId + ways.header
    }

    function Handled(): (n: nat) {
      uploaded + adopted + skipped
    }

    function Counts(): (f: Forecast) {
      Forecast(uploaded, elsewhere, ambiguous, adopted + duplicates)
    }

    function Plus(s: Summary): (r: Summary) {
      Summary(uploaded + s.uploaded, adopted + s.adopted, elsewhere + s.elsewhere, ambiguous + s.ambiguous,
              duplicates + s.duplicates, ways.Plus(s.ways), skipped + s.skipped, limitReached || s.limitReached)
    }

    /** One more retired duplicate. */
    function Duplicate(how: Method): (r: Summary) {
      var s := this.(duplicates := duplicates + 1, skipped := skipped + 1);
      match how
      case Exact => s.(ways := ways.(exact := ways.exact + 1))
      case MessageId => s.(ways := ways.(messageId := ways.messageId + 1))
      case Header => s.(ways := ways.(header := ways.header + 1))
    }
  }

  lemma OneMoreDuplicate(s: Summary, how: Method)
    requires s.Balanced()
    ensures
      var d := s.Duplicate(how);
      && d.Balanced() && d.Handled() == s.Handled() + 1 && d.uploaded == s.uploaded && d.limitReached == s.limitReached
      && d.duplicates == s.duplicates + 1 && d.Counts() == s.Counts().(settled := s.Counts().settled + 1)
  {
  }

  /** Nothing has been counted. */
  function Empty(): (s: Summary)
    ensures s.Balanced() && s.Handled() == 0 && s.Counts() == Zero && !s.limitReached
  {
    Summary(0, 0, 0, 0, 0, Ways(0, 0, 0), 0, false)
  }

  /** One mapping with the untagged files of its Maildir. */
  datatype Job = Job(mapping: MailWorld.Mapping, box: Box, locals: seq<Raw>)

  /** The options of an invocation; planned names the uploads of a dry run. */
  datatype Options = Options(rules: Rules, dryRun: bool, limit: nat, planned: nat -> Id)

  function FilesOf(box: Box, locals: seq<Raw>): (fs: seq<File>)
    ensures |fs| == |locals| && forall i :: 0 <= i < |fs| ==> fs[i] == File(box, locals[i])
  {
    seq(|locals|, i requires 0 <= i < |locals| => File(box, locals[i]))
  }

  function AllFiles(jobs: seq<Job>): (fs: seq<File>) {
    if jobs == [] then [] else AllFiles(jobs[..|jobs| - 1]) + FilesOf(jobs[|jobs| - 1].box, jobs[|jobs| - 1].locals)
  }

  /** The names of planned uploads are distinct and no message on the server has one. */
  ghost predicate PlannedApart(o: Options, ix: Index) {
    && (forall m: nat, n: nat :: m != n ==> o.planned(m) != o.planned(n))
    && (forall n: nat :: o.planned(n) !in ix.locations)
  }

  ghost predicate NamesLeft(o: Options, ix: Index, planned: nat) {
    && (forall m: nat, n: nat :: m != n ==> o.planned(m) != o.planned(n))
    && (forall n: nat :: n > planned ==> o.planned(n) !in ix.locations)
  }

  /** The run of one account. */
  class Account {
    const o: Options
    const size: nat                        // messages indexed before the run
    var index: Index
    var entries: MailWorld.Entries
    var dirs: MailWorld.Maildirs
    var retired: seq<Raw>
    var planned: nat
    var imports: nat                       // messages the server has taken
    ghost var handled: nat                 // files brought to their end

    constructor (o: Options, index: Index, entries: MailWorld.Entries, dirs: MailWorld.Maildirs)
      requires index.Sound() && PlannedApart(o, index)
      ensures Valid() && this.o == o && this.index == index && imports == 0 && size == |index.messages|
      ensures this.entries == entries && this.dirs == dirs && retired == [] && handled == 0
    {
      this.o, this.size, this.index, this.entries, this.dirs := o, |index.messages|, index, entries, dirs;
      retired, planned, imports, handled := [], 0, 0, 0;
    }

    /** The index is in order and whatever this run uploaded agreed with nothing before it. */
    ghost predicate Valid()
      reads this
    {
      && index.Sound() && size <= |index.messages|
      && Fresh(o.rules, Slots(index), size)
      && (o.dryRun ==> imports == 0 && NamesLeft(o, index, planned))
    }

    /** What was uploaded so far is what the server has taken. */
    ghost predicate Ready(before: nat, part: Summary)
      reads this
    {
      Valid() && part.Balanced() && (!o.dryRun ==> before + part.uploaded == imports)
    }

    /** The file matches nothing in the index. */
    ghost predicate IsNew(job: Job, raw: Raw)
      reads this
    {
      Judge(o.rules, Slots(index), job.box, raw).New?
    }

    /** The message has its entry and file in the mapping. */
    ghost predicate Filed(job: Job, id: Id)
      reads this
    {
      var key := MailWorld.Key(job.mapping.remote, id);
      key in entries && MailWorld.Found(dirs, job.mapping.local, entries[key].file)
    }

    /** The server takes a message under a new id, or refuses. */
    method ImportRaw(raw: Raw) returns (r: Result<Id, Problem>)
      requires Valid() && !o.dryRun
      modifies this`imports
      ensures Valid() && old(imports) <= imports <= old(imports) + 1 && (r.Ok? ==> imports == old(imports) + 1)
      ensures r.Ok? ==> r.value !in index.locations
      ensures r.Err? ==> r.error != UnknownAccount
    {
      var id: Id := *;
      var full: bool := *;
      if full {
        return Err(QuotaExceeded);
      }
      if id in index.locations {
        return Err(Failed);
      }
      imports := imports + 1;
      var lost: bool := *;
      return if lost then Err(Failed) else Ok(id);
    }

    /** Renames the local file so that it carries the marker. */
    method EnsureStableKey(local: string, file: MailWorld.FileKey, raw: Raw) returns (ok: bool)
      requires Valid()
      modifies this`dirs
      ensures Valid() && (!ok ==> dirs == old(dirs))
      ensures ok ==> MailWorld.Found(dirs, local, file)
    {
      ok := *;
      if ok {
        var d := MailWorld.DirOf(dirs, local);
        dirs := dirs[local := d[file := (if file in d then d[file] else []) + [raw]]];
      }
    }

    method Retire(raw: Raw) returns (ok: bool)
      requires Valid()
      modifies this`retired
      ensures Valid() && retired == if ok then old(retired) + [raw] else old(retired)
    {
      ok := *;
      if ok {
        retired := retired + [raw];
      }
    }

    /** A file whose only match is in the target mailbox is adopted, unless that message has its file already. */
    method Settle(job: Job, raw: Raw, id: Id, how: Method, part: Summary) returns (now: Summary, status: Status)
      requires Valid() && part.Balanced()
      modifies this`entries, this`dirs, this`retired
      ensures status != Broken(UnknownAccount)
      ensures Valid() && now.Balanced()
      ensures o.dryRun ==> entries == old(entries) && dirs == old(dirs) && retired == old(retired)
      ensures
        var key := MailWorld.Key(job.mapping.remote, id);
        var has := key in old(entries) && MailWorld.Found(old(dirs), job.mapping.local, old(entries)[key].file);
        && (status.Done? ==> now == if has then part.Duplicate(how) else part.(adopted := part.adopted + 1))
        && (status.Done? && !o.dryRun ==> Filed(job, id) && retired == old(retired) + if has then [raw] else [])
      ensures !status.Done? ==> now == part && status.Broken?
      ensures forall k :: k in old(entries) ==> k in entries && entries[k].file == old(entries)[k].file
      ensures !o.dryRun ==> |retired| == |old(retired)| + now.duplicates - part.duplicates
    {
      now := part;
      var key := MailWorld.Key(job.mapping.remote, id);
      var file := if key in entries then entries[key].file else MailWorld.StableKey(job.mapping.remote, id);
      if key in entries && MailWorld.Found(dirs, job.mapping.local, file) {
        if !o.dryRun {
          var ok := Retire(raw);
          if !ok {
            return now, Broken(Failed);
          }
        }
        return part.Duplicate(how), Done;
      }
      if !o.dryRun {
        var ok := EnsureStableKey(job.mapping.local, file, raw);
        if !ok {
          return now, Broken(Failed);
        }
        entries := entries[key := MailWorld.Entry(job.mapping.remote, id, job.mapping.local, file)];
        if * {
          return now, Broken(Failed);
        }
      }
      return part.(adopted := part.adopted + 1), Done;
    }

    /** Uploads a file, or plans to. */
    method Upload(job: Job, raw: Raw, before: nat, part: Summary) returns (now: Summary, status: Status)
      requires Ready(before, part) && IsNew(job, raw)
      modifies this`index, this`entries, this`dirs, this`planned, this`imports
      ensures status != Broken(UnknownAccount)
      ensures Valid() && now.Balanced()
      ensures o.dryRun ==> entries == old(entries) && dirs == old(dirs)
      ensures status.Done? ==> now == part.(uploaded := part.uploaded + 1)
      ensures status.Done? ==> Slots(index) == Slots(old(index)) + [Slot(raw, {job.box}, true)]
      ensures status.Done? && !o.dryRun ==> Filed(job, index.messages[|index.messages| - 1].id) && imports == old(imports) + 1
      ensures !status.Done? ==> now == part && !o.dryRun && index == old(index)
      ensures status.LimitReached? ==> o.limit > 0 && before + part.uploaded >= o.limit && imports == old(imports)
      ensures imports >= old(imports)
      ensures o.limit > 0 && old(imports) <= o.limit ==> imports <= o.limit
      ensures !o.dryRun && status.Done? ==> before + now.uploaded == imports
      ensures now.duplicates == part.duplicates
    {
      hide Fresh, Unmatched, Match;
      now := part;
      NewIsFresh(o.rules, Slots(index), job.box, raw, size);
      if o.dryRun {
        planned := planned + 1;
        var id := o.planned(planned);
        WithSlots(index, id, raw, job.box);
        index := index.With(id, raw, job.box);
        return part.(uploaded := part.uploaded + 1), Done;
      }
      if o.limit > 0 && before + part.uploaded >= o.limit {
        return now, LimitReached;
      }
      var got := ImportRaw(raw);
      if got.Err? {
        return now, Broken(got.error);
      }
      var file := MailWorld.StableKey(job.mapping.remote, got.value);
      var ok := EnsureStableKey(job.mapping.local, file, raw);
      if !ok {
        return now, Broken(Failed);
      }
      entries := entries[MailWorld.Key(job.mapping.remote, got.value) :=
        MailWorld.Entry(job.mapping.remote, got.value, job.mapping.local, file)];
      if * {
        return now, Broken(Failed);
      }
      WithSlots(index, got.value, raw, job.box);
      index := index.With(got.value, raw, job.box);
      return part.(uploaded := part.uploaded + 1), Done;
    }

    /** A file that is one message on the server. */
    method HandleMatched(job: Job, raw: Raw, k: nat, how: Method, part: Summary) returns (now: Summary, status: Status)
      requires Valid() && part.Balanced() && k < |index.messages|
      modifies this`entries, this`dirs, this`retired
      ensures status != Broken(UnknownAccount)
      ensures Valid() && now.Balanced()
      ensures o.dryRun ==> entries == old(entries) && dirs == old(dirs) && retired == old(retired)
      ensures status.Done? || (status.Broken? && now == part)
      ensures now.limitReached == part.limitReached && now.uploaded == part.uploaded
      ensures now.Handled() == part.Handled() + if status.Done? then 1 else 0
      ensures status.Done? ==>
        var s := Slots(index)[k];
        now.Counts() == Add(part.Counts(), if s.migrated then Retired(k, how) else if job.box !in s.boxes then Elsewhere else Here(k, how))
      ensures !o.dryRun ==> |retired| == |old(retired)| + now.duplicates - part.duplicates
    {
      hide Fresh, Index.Sound, NamesLeft, Summary.Duplicate, Filed;
      OneMoreDuplicate(part, how);
      var id := index.messages[k].id;
      if id in index.migrated {
        if !o.dryRun {
          var ok := Retire(raw);
          if !ok {
            return part, Broken(Failed);
          }
        }
        return part.Duplicate(how), Done;
      }
      if !(id in index.locations && job.box in index.locations[id]) {
        return part.(elsewhere := part.elsewhere + 1, skipped := part.skipped + 1), Done;
      }
      now, status := Settle(job, raw, id, how, part);
    }

    /** One local file. */
    method HandleFile(job: Job, raw: Raw, before: nat, part: Summary) returns (now: Summary, status: Status)
      requires Ready(before, part)
      modifies this
      ensures status != Broken(UnknownAccount)
      ensures Valid() && now.Balanced()
      ensures o.dryRun ==> entries == old(entries) && dirs == old(dirs) && retired == old(retired)
      ensures now.limitReached == part.limitReached
      ensures now.Handled() == part.Handled() + if status.Done? then 1 else 0
      ensures !status.Done? ==> now == part && index == old(index)
      ensures status.Done? ==>
        Prediction(Slots(index), now.Counts())
        == PredictOne(o.rules, Prediction(Slots(old(index)), part.Counts()), File(job.box, raw))
      ensures status.LimitReached? ==> !o.dryRun && before + now.uploaded == imports >= o.limit > 0
      ensures o.limit > 0 && old(imports) <= o.limit ==> imports <= o.limit
      ensures !o.dryRun && status.Done? ==> before + now.uploaded == imports
      ensures !o.dryRun && !status.Done? ==> before + now.uploaded <= imports
      ensures !o.dryRun ==> |retired| == |old(retired)| + now.duplicates - part.duplicates
      ensures handled == old(handled) + if status.Done? then 1 else 0
    {
      hide Match, Fresh, Contents, Unmatched, Index.Sound;
      JudgeBySlots(o.rules, index, raw);
      var found, how := MatchRemote(o.rules, raw, index.messages, {});
      if |found| > 1 {
        handled := handled + 1;
        return part.(ambiguous := part.ambiguous + 1, skipped := part.skipped + 1), Done;
      }
      if |found| == 1 {
        now, status := HandleMatched(job, raw, found[0], how, part);
      } else {
        now, status := Upload(job, raw, before, part);
      }
      handled := handled + if status.Done? then 1 else 0;
    }

    /** All files of one mapping; however it ends, the files handled so far are counted, each once. */
    method UploadMailbox(job: Job, before: nat) returns (part: Summary, status: Status)
      requires Valid() && (!o.dryRun ==> before == imports)
      modifies this
      ensures status != Broken(UnknownAccount)
      ensures Valid() && part.Balanced() && !part.limitReached
      ensures part.Handled() <= |job.locals| && (status.Done? ==> part.Handled() == |job.locals|)
      ensures o.dryRun ==> entries == old(entries) && dirs == old(dirs) && retired == old(retired)
      ensures Prediction(Slots(index), part.Counts())
        == Predict(o.rules, Prediction(Slots(old(index)), Zero), FilesOf(job.box, job.locals)[..part.Handled()])
      ensures status.LimitReached? ==> !o.dryRun && before + part.uploaded == imports >= o.limit > 0
      ensures o.limit > 0 && old(imports) <= o.limit ==> imports <= o.limit
      ensures !o.dryRun ==> before + part.uploaded <= imports && (status.Done? ==> before + part.uploaded == imports)
      ensures handled == old(handled) + part.Handled()
      ensures !o.dryRun ==> |retired| == |old(retired)| + part.duplicates
    {
      hide Fresh, Index.Sound, PredictOne, Predict, NamesLeft, Slots, FilesOf, Empty;
      part, status := Empty(), Done;
      ghost var files := FilesOf(job.box, job.locals);
      ghost var p := Prediction(Slots(index), Zero);
      var n := 0;
      PredictNothing(o.rules, p, files);
      while n < |job.locals|
        invariant n <= |job.locals| && status.Done?
        invariant Valid() && part.Balanced() && part.Handled() == n && !part.limitReached
        invariant o.dryRun ==> entries == old(entries) && dirs == old(dirs) && retired == old(retired)
        invariant Prediction(Slots(index), part.Counts()) == Predict(o.rules, p, files[..n])
        invariant handled == old(handled) + n && (!o.dryRun ==> |retired| == |old(retired)| + part.duplicates)
        invariant o.limit > 0 && old(imports) <= o.limit ==> imports <= o.limit
        invariant !o.dryRun ==> before + part.uploaded == imports
      {
        if * {
          status := Broken(Failed);   // interrupted
          return;
        }
        PredictNext(o.rules, p, files, n);
        part, status := HandleFile(job, job.locals[n], before, part);
        if !status.Done? {
          return;
        }
        n := n + 1;
      }
    }

    /** All mappings in order; however it ends, the files handled so far are counted, each once. */
    method Run(jobs: seq<Job>) returns (out: Summary, status: Status)
      requires Valid() && imports == 0
      modifies this
      ensures Valid() && out.Balanced() && (out.limitReached <==> status.LimitReached?)
      ensures out.Handled() <= |AllFiles(jobs)| && (status.Done? ==> out.Handled() == |AllFiles(jobs)|)
      ensures o.dryRun ==> entries == old(entries) && dirs == old(dirs) && retired == old(retired) && imports == 0
      ensures Prediction(Slots(index), out.Counts())
        == Predict(o.rules, Prediction(Slots(old(index)), Zero), AllFiles(jobs)[..out.Handled()])
      ensures o.limit > 0 ==> imports <= o.limit
      ensures !o.dryRun ==> out.uploaded <= imports && (status.Done? || status.LimitReached? ==> out.uploaded == imports)
      ensures status.LimitReached? ==> !o.dryRun && imports >= o.limit > 0
      ensures status != Broken(UnknownAccount)
      ensures handled == old(handled) + out.Handled()
      ensures !o.dryRun ==> |retired| == |old(retired)| + out.duplicates
    {
      hide Fresh, Index.Sound, PredictOne, Predict, NamesLeft, Slots, FilesOf, AllFiles, Empty;
      out, status := Empty(), Done;
      ghost var p := Prediction(Slots(index), Zero);
      NothingPredicted(o.rules, p, jobs);
      var i := 0;
      while i < |jobs|
        invariant i <= |jobs| && status.Done?
        invariant Valid() && out.Balanced() && !out.limitReached && out.Handled() == |AllFiles(jobs[..i])|
        invariant AllFiles(jobs[..i]) <= AllFiles(jobs)
        invariant o.dryRun ==> entries == old(entries) && dirs == old(dirs) && retired == old(retired)
        invariant Prediction(Slots(index), out.Counts()) == Predict(o.rules, p, AllFiles(jobs[..i]))
        invariant handled == old(handled) + out.Handled() && (!o.dryRun ==> |retired| == |old(retired)| + out.duplicates)
        invariant o.limit > 0 ==> imports <= o.limit
        invariant !o.dryRun ==> out.uploaded == imports
      {
        ghost var slots, counts := Slots(index), out.Counts();
        var part;
        part, status := UploadMailbox(jobs[i], out.uploaded);
        PredictPart(o.rules, p, slots, counts, jobs, i, part.Handled());
        out := out.Plus(part);
        if status.LimitReached? {
          out := out.(limitReached := true);
        }
        if !status.Done? {
          return;
        }
        i := i + 1;
      }
      assert jobs[..i] == jobs;
      assert AllFiles(jobs)[..|AllFiles(jobs)|] == AllFiles(jobs);
    }
  }

  /** The first n files of mapping i after all files of those before it. */
  lemma PredictPart(rules: Rules, p: Prediction, slots: seq<Slot>, counts: Forecast, jobs: seq<Job>, i: nat, n: nat)
    requires i < |jobs| && n <= |jobs[i].locals|
    requires Prediction(slots, counts) == Predict(rules, p, AllFiles(jobs[..i]))
    ensures
      var files := FilesOf(jobs[i].box, jobs[i].locals);
      var q := Predict(rules, Prediction(slots, Zero), files[..n]);
      var m := |AllFiles(jobs[..i])| + n;
      && AllFiles(jobs[..i + 1]) <= AllFiles(jobs)
      && |AllFiles(jobs[..i + 1])| == |AllFiles(jobs[..i])| + |files|
      && m <= |AllFiles(jobs)|
      && Prediction(q.slots, Sum(counts, q.counts)) == Predict(rules, p, AllFiles(jobs)[..m])
      && (n == |files| ==> AllFiles(jobs[..i + 1]) == AllFiles(jobs)[..m])
  {
    hide Predict, FilesOf, AllFiles;
    var before, files := AllFiles(jobs[..i]), FilesOf(jobs[i].box, jobs[i].locals);
    MoreFiles(jobs, i);
    assert (before + files)[..|before| + n] == before + files[..n];
    assert AllFiles(jobs)[..|before| + n] == before + files[..n];
    PredictFrom(rules, slots, counts, files[..n]);
    PredictConcat(rules, p, before, files[..n]);
  }

  lemma PredictNothing(rules: Rules, p: Prediction, files: seq<File>)
    ensures Predict(rules, p, files[..0]) == p
  {
  }

  lemma NothingPredicted(rules: Rules, p: Prediction, jobs: seq<Job>)
    ensures AllFiles(jobs[..0]) == [] && Predict(rules, p, []) == p
  {
  }

  lemma {:induction false} MoreFiles(jobs: seq<Job>, i: nat)
    requires i < |jobs|
    ensures AllFiles(jobs[..i + 1]) == AllFiles(jobs[..i]) + FilesOf(jobs[i].box, jobs[i].locals)
    ensures AllFiles(jobs[..i + 1]) <= AllFiles(jobs)
    decreases |jobs| - i
  {
    assert jobs[..i + 1][..i] == jobs[..i];
    if i + 1 < |jobs| {
      MoreFiles(jobs, i + 1);
    } else {
      assert jobs[..i + 1] == jobs;
    }
  }

  /** A dry run counts what a real run counts that comes to its end: as many uploads, files found
      elsewhere and ambiguous ones, and as many adopted and retired ones together. A real run that
      stops before has counted what the forecast counts for the files it handled. */
  method DryRunFidelity(dry: Options, live: Options, index: Index, entries: MailWorld.Entries, dirs: MailWorld.Maildirs, jobs: seq<Job>)
    returns (forecast: Summary, outcome: Summary, first: Status, second: Status)
    requires index.Sound() && PlannedApart(dry, index) && PlannedApart(live, index)
    requires dry.dryRun && !live.dryRun && dry.rules == live.rules
    ensures first.Done? && second.Done? ==> forecast.Counts() == outcome.Counts()
    ensures outcome.Handled() <= |AllFiles(jobs)| && (first.Done? ==>
      var all := Predict(dry.rules, Prediction(Slots(index), Zero), AllFiles(jobs));
      forecast.Counts() == all.counts)
    ensures outcome.Counts() == Predict(dry.rules, Prediction(Slots(index), Zero), AllFiles(jobs)[..outcome.Handled()]).counts
    ensures !first.LimitReached?
  {
    hide Predict, Slots, Fresh, AllFiles;
    assert AllFiles(jobs)[..|AllFiles(jobs)|] == AllFiles(jobs);
    var d := new Account(dry, index, entries, dirs);
    forecast, first := d.Run(jobs);
    var r := new Account(live, index, entries, dirs);
    outcome, second := r.Run(jobs);
  }

  // ------------------------------------------------------------------ several accounts

  datatype Input = Input(name: string, jmap: bool, index: Index, entries: MailWorld.Entries, dirs: MailWorld.Maildirs, jobs: seq<Job>)

  /** The accounts that are uploaded to, in order. */
  function Chosen(accounts: seq<Input>, selected: set<string>): (chosen: seq<Input>) {
    if accounts == [] then []
    else
      var a := accounts[|accounts| - 1];
      Chosen(accounts[..|accounts| - 1], selected) + if a.jmap && (selected == {} || a.name in selected) then [a] else []
  }

  /** What the first n files of an account count, starting from its own index. */
  function Part(rules: Rules, a: Input, n: nat): (f: Forecast)
    requires n <= |AllFiles(a.jobs)|
  {
    Predict(rules, Prediction(Slots(a.index), Zero), AllFiles(a.jobs)[..n]).counts
  }

  function Whole(rules: Rules, accounts: seq<Input>): (f: Forecast) {
    if accounts == [] then Zero
    else
      var a := accounts[|accounts| - 1];
      Sum(Whole(rules, accounts[..|accounts| - 1]), Part(rules, a, |AllFiles(a.jobs)|))
  }

  function CountOf(accounts: seq<Input>): (n: nat) {
    if accounts == [] then 0 else CountOf(accounts[..|accounts| - 1]) + |AllFiles(accounts[|accounts| - 1].jobs)|
  }

  /** The counters are those of the first accounts in full and of the first n files of the next. */
  ghost predicate CountsUpTo(rules: Rules, chosen: seq<Input>, total: Summary, full: nat, n: nat) {
    && full <= |chosen| && (full == |chosen| ==> n == 0) && (full < |chosen| ==> n <= |AllFiles(chosen[full].jobs)|)
    && total.Handled() == CountOf(chosen[..full]) + n
    && total.Counts() == Sum(Whole(rules, chosen[..full]), if full < |chosen| then Part(rules, chosen[full], n) else Zero)
  }

  /** The accounts in order; a limit holds for all uploads together. However it ends, the files of the
      accounts done, and of the one at work those handled so far, are counted, each once. */
  method UploadExisting(accounts: seq<Input>, selected: set<string>, o: Options)
    returns (total: Summary, status: Status, imports: nat, ghost full: nat, ghost n: nat)
    requires forall i :: 0 <= i < |accounts| ==> accounts[i].index.Sound() && PlannedApart(o, accounts[i].index)
    ensures total.Balanced() && (total.limitReached <==> status.LimitReached?)
    ensures if o.dryRun then imports == 0 else total.uploaded <= imports
    ensures o.limit > 0 ==> imports <= o.limit
    ensures !o.dryRun && (status.Done? || status.LimitReached?) ==> imports == total.uploaded
    ensures status.LimitReached? ==> !o.dryRun && imports >= o.limit > 0
    ensures status == Broken(UnknownAccount) <==> exists name :: name in selected && Unknown(accounts, name)
    ensures CountsUpTo(o.rules, Chosen(accounts, selected), total, full, n)
    ensures status.Done? ==> full == |Chosen(accounts, selected)|
  {
    hide Empty, CountsUpTo, Chosen, PlannedApart, Index.Sound, AllFiles, Part, Unknown;
    total, status, imports, full, n := Empty(), Done, 0, 0, 0;
    ghost var chosen := Chosen(accounts, selected);
    NoneCounted(o.rules, accounts, selected, total);
    var known := AllKnown(accounts, selected);
    if !known {
      status := Broken(UnknownAccount);
      return;
    }
    var i := 0;
    while i < |accounts|
      invariant i <= |accounts| && total.Balanced() && !total.limitReached && status.Done?
      invariant if o.dryRun then imports == 0 else imports == total.uploaded
      invariant o.limit > 0 ==> imports <= o.limit
      invariant n == 0 && Chosen(accounts[..i], selected) <= chosen && |Chosen(accounts[..i], selected)| == full
      invariant CountsUpTo(o.rules, chosen, total, full, 0)
    {
      ChosenStep(accounts, selected, i);
      if selected == {} || accounts[i].name in selected {
        if * {
          status := Broken(Failed);
          return;
        }
        if !accounts[i].jmap {
          if selected != {} {
            status := Broken(NotJmap);
            return;
          }
        } else {
          ghost var was := total;
          var more;
          total, status, more, n := UploadAccount(accounts[i], o, total);
          imports := imports + more;
          assert chosen[full] == accounts[i];
          CountsMore(o.rules, chosen, was, total, full, n);
          if !status.Done? {
            return;
          }
          full, n := full + 1, 0;
        }
      }
      i := i + 1;
    }
    assert accounts[..i] == accounts;
  }

  method AllKnown(accounts: seq<Input>, selected: set<string>) returns (known: bool)
    ensures known <==> forall name :: name in selected ==> !Unknown(accounts, name)
  {
    hide Unknown;
    var unchecked := selected;
    while unchecked != {}
      invariant unchecked <= selected && forall name :: name in selected - unchecked ==> !Unknown(accounts, name)
      decreases |unchecked|
    {
      var name :| name in unchecked;
      if Unknown(accounts, name) {
        return false;
      }
      unchecked := unchecked - {name};
    }
    return true;
  }

  /** One account, with what is left of the limit. */
  method UploadAccount(input: Input, o: Options, before: Summary)
    returns (total: Summary, status: Status, imports: nat, ghost n: nat)
    requires input.index.Sound() && PlannedApart(o, input.index)
    requires before.Balanced() && !before.limitReached && (!o.dryRun && o.limit > 0 ==> before.uploaded <= o.limit)
    ensures total.Balanced() && (total.limitReached <==> status.LimitReached?)
    ensures total.Handled() == before.Handled() + n && n <= |AllFiles(input.jobs)|
    ensures status.Done? ==> n == |AllFiles(input.jobs)|
    ensures total.Counts() == Sum(before.Counts(), Part(o.rules, input, n))
    ensures o.dryRun ==> imports == 0
    ensures !o.dryRun && o.limit > 0 ==> before.uploaded + imports <= o.limit
    ensures !o.dryRun ==> total.uploaded <= before.uploaded + imports
    ensures !o.dryRun && (status.Done? || status.LimitReached?) ==> total.uploaded == before.uploaded + imports
    ensures status.LimitReached? ==> !o.dryRun && before.uploaded + imports >= o.limit > 0
    ensures status != Broken(UnknownAccount)
  {
    hide Predict, Slots, Fresh, NamesLeft, AllFiles;
    var remaining := o.limit;
    if !o.dryRun && o.limit > 0 {
      if before.uploaded >= o.limit {
        NoPart(o.rules, input);
        return before.(limitReached := true), LimitReached, 0, 0;
      }
      remaining := o.limit - before.uploaded;
    }
    var run := new Account(o.(limit := remaining), input.index, input.entries, input.dirs);
    var summary;
    summary, status := run.Run(input.jobs);
    return before.Plus(summary), status, run.imports, run.handled;
  }

  predicate Unknown(accounts: seq<Input>, name: string) {
    forall i :: 0 <= i < |accounts| ==> accounts[i].name != name
  }

  lemma NoPart(rules: Rules, a: Input)
    ensures Part(rules, a, 0) == Zero
  {
  }

  lemma NoneCounted(rules: Rules, accounts: seq<Input>, selected: set<string>, total: Summary)
    requires total.Handled() == 0 && total.Counts() == Zero
    ensures CountsUpTo(rules, Chosen(accounts, selected), total, 0, 0)
    ensures Chosen(accounts[..0], selected) == []
  {
    hide Predict, AllFiles, Slots, Part;
    var chosen := Chosen(accounts, selected);
    if chosen != [] {
      NoPart(rules, chosen[0]);
    }
  }

  lemma {:induction false} ChosenStep(accounts: seq<Input>, selected: set<string>, i: nat)
    requires i < |accounts|
    ensures
      var a := accounts[i];
      Chosen(accounts[..i + 1], selected)
      == Chosen(accounts[..i], selected) + if a.jmap && (selected == {} || a.name in selected) then [a] else []
    ensures Chosen(accounts[..i + 1], selected) <= Chosen(accounts, selected)
    decreases |accounts| - i
  {
    assert accounts[..i + 1][..i] == accounts[..i];
    if i + 1 < |accounts| {
      ChosenStep(accounts, selected, i + 1);
    } else {
      assert accounts[..i + 1] == accounts;
    }
  }

  /** The next account adds its part. */
  lemma CountsMore(rules: Rules, chosen: seq<Input>, was: Summary, total: Summary, full: nat, n: nat)
    requires CountsUpTo(rules, chosen, was, full, 0) && full < |chosen| && n <= |AllFiles(chosen[full].jobs)|
    requires total.Handled() == was.Handled() + n && total.Counts() == Sum(was.Counts(), Part(rules, chosen[full], n))
    ensures CountsUpTo(rules, chosen, total, full, n)
    ensures n == |AllFiles(chosen[full].jobs)| ==> CountsUpTo(rules, chosen, total, full + 1, 0)
  {
    NoPart(rules, chosen[full]);
    hide Part, Predict, AllFiles;
    assert chosen[..full + 1][..full] == chosen[..full];
    if full + 1 < |chosen| {
      NoPart(rules, chosen[full + 1]);
    }
  }
}
