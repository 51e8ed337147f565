/**
 What a submission and a retry mean on the fields of the request and of the
 original command: which requests pass, which are the same, and what the
 commands they create carry.
 */
module SubmissionRules {
  import opened Records
  import opened Ordering
  import opened Admission
  import opened Journal
  import opened CommandRules
  import opened TextSort
  import opened Submission

  // ---- which requests are the same ------------------------------------------------

  /**
   The same submission: the same ID, kind, expiry and retry link, the same targets in any order, the same delivery and
   payload, an absent delivery being online and an absent payload empty.
   */
  ghost predicate SameContents(a: SubmitRequest, b: SubmitRequest) {
    && a.submissionId == b.submissionId && a.kind == b.kind && a.expiresAt == b.expiresAt && a.retryOf == b.retryOf
    && multiset(a.machineIds) == multiset(b.machineIds)
    && (a.delivery == b.delivery || {a.delivery, b.delivery} == {None, Some(Online)})
    && (a.payload == b.payload || {a.payload, b.payload} == {None, Some(map[])})
  }

  /** What a request says of its payload; one that is absent says nothing. */
  function PayloadOf(req: SubmitRequest): map<string, string> { match req.payload case None => map[] case Some(p) => p }

  function DeliveryOf(req: SubmitRequest): Delivery { match req.delivery case None => Online case Some(d) => d }

  /** What the node digests is the request itself, with the two defaults and its targets sorted. */
  lemma NormalMeans(req: SubmitRequest)
    ensures var r := Normal(req);
      && r.submissionId == req.submissionId && r.kind == req.kind && r.expiresAt == req.expiresAt
      && r.retryOf == req.retryOf && r.payload == PayloadOf(req) && r.delivery == DeliveryOf(req)
      && Sorted(r.machineIds) && multiset(r.machineIds) == multiset(req.machineIds)
  {
    hide Sorted, SortTexts;
    SortSorts(req.machineIds);
  }

  lemma SameDefaults<T>(a: Option<T>, b: Option<T>, default: T)
    ensures (match a case None => default case Some(x) => x) == (match b case None => default case Some(x) => x)
       <==> a == b || {a, b} == {None, Some(default)}
  {
    var pair, both := {a, b}, {None, Some(default)};
    assert a in pair && b in pair && None in both && Some(default) in both;
    assert pair == both ==> a in both && b in both;
    if (a == None && b == Some(default)) || (b == None && a == Some(default)) {
      assert pair == both;
    }
  }

  /** Two requests digest the same if and only if they are the same submission. */
  lemma {:induction false} SameRequest(a: SubmitRequest, b: SubmitRequest)
    ensures Normal(a) == Normal(b) <==> SameContents(a, b)
  {
    hide SortTexts, Sorted;
    NormalMeans(a);
    NormalMeans(b);
    SameDefaults(a.delivery, b.delivery, Online);
    SameDefaults(a.payload, b.payload, map[]);
    if multiset(a.machineIds) == multiset(b.machineIds) { SortIgnoresOrder(a.machineIds, b.machineIds); }
  }

  // ---- which requests pass ----------------------------------------------------------

  /** The checks on a request, as submitted. */
  ghost predicate Allowed(env: Env, req: SubmitRequest) {
    && 16 <= |req.submissionId| <= 128
    && OfKnownKind(req.kind)
    && 1 <= |req.machineIds| <= 50
    && (forall i, j :: 0 <= i < j < |req.machineIds| ==> req.machineIds[i] != req.machineIds[j])
    && req.delivery in {None, Some(Online), Some(Deferred)}
    && (req.delivery == Some(Deferred) ==> env.now < req.expiresAt <= env.now + 2592000000)
    && (req.kind == "diagnostics" ==> NamesProfile(PayloadOf(req)))
    && env.requestLength(Normal(req)) <= 131072
  }

  lemma {:induction false} NoRepeat(ids: seq<NodeId>)
    ensures NoDuplicates(ids) <==> forall x :: multiset(ids)[x] <= 1
  {
    if ids != [] {
      var init, last := ids[..|ids| - 1], ids[|ids| - 1];
      assert ids == init + [last];
      NoRepeat(init);
      assert multiset(ids) == multiset(init) + multiset{last};
      if NoDuplicates(ids) {
        forall x ensures multiset(ids)[x] <= 1 {
          assert last !in init;
        }
      } else {
        var i, j :| 0 <= i < j < |ids| && ids[i] == ids[j];
        if j == |ids| - 1 {
          assert init[i] == last && last in multiset(init);
          assert multiset(ids)[last] > 1;
        } else {
          assert init[i] == init[j];
          var x :| multiset(init)[x] > 1;
          assert multiset(ids)[x] > 1;
        }
      }
    }
  }

  /** The checks the node makes are these. */
  lemma {:induction false} AllowedMeans(env: Env, req: SubmitRequest)
    ensures ValidRequest(env, Normal(req)) <==> Allowed(env, req)
  {
    hide Sorted, SortTexts, Normal, ValidKind, ValidDiagnostics, NoDuplicates, OfKnownKind, NamesProfile;
    NormalMeans(req);
    var r := Normal(req);
    assert |r.machineIds| == |multiset(r.machineIds)| == |req.machineIds|;
    NoRepeat(r.machineIds);
    NoRepeat(req.machineIds);
    KindMeans(req.kind);
    DistinctTargets(req.machineIds);
    DiagnosticsMeans(PayloadOf(req));
  }

  lemma DistinctTargets(ids: seq<NodeId>)
    ensures NoDuplicates(ids) <==> forall i, j :: 0 <= i < j < |ids| ==> ids[i] != ids[j]
  {
  }

  // ---- what a command carries ---------------------------------------------------------

  /**
   The command a request makes for a target: the request's kind, delivery, expiry and retry link; its payload without
   the password, a check without a match also taking what the catalog matches its package to; and the password sealed
   with the target's key, if there is one.
   */
  ghost predicate Carries(log: Log, env: Env, req: SubmitRequest, target: NodeId, c: Command)
    requires target in log.members
  {
    var payload := PayloadOf(req);
    var open := map k | k in payload && k != "password" :: payload[k];
    var package := if "package" in payload then payload["package"] else "";
    && c.id == Digest(log.fleet + "/" + req.submissionId + "/" + target) && c.jobId == req.submissionId
    && c.target == target && c.kind == req.kind && c.delivery == DeliveryOf(req) && c.expiresAt == req.expiresAt
    && c.retryOf == req.retryOf && c.createdAt == env.now
    && c.payload == (if req.kind == "check" && ("match" !in payload || payload["match"] == "")
                        && env.catalogMatch(package).Some?
                     then open["match" := env.catalogMatch(package).value] else open)
    && c.secret == if "password" !in payload || payload["password"] == "" then ""
                   else env.seal(log.members[target].member.encryptionKey, payload["password"])
  }

  lemma CommandMeans(log: Log, env: Env, req: SubmitRequest, target: NodeId)
    requires target in log.members
    ensures Carries(log, env, req, target, CommandFor(log, env, Normal(req), target))
  {
    hide Sorted, SortTexts, Normal;
    NormalMeans(req);
    var payload := PayloadOf(req);
    assert payload - {"password"} == map k | k in payload && k != "password" :: payload[k];
  }

  /** Execution IDs end in their target, so one ID cannot serve two targets or two jobs. */
  lemma CommandIdParts(fleet: string, j1: string, t1: NodeId, j2: string, t2: NodeId)
    requires |t1| == |t2| && CommandIdOf(fleet, j1, t1) == CommandIdOf(fleet, j2, t2)
    ensures t1 == t2 && j1 == j2
  {
    var a, b := fleet + "/" + j1 + "/", fleet + "/" + j2 + "/";
    assert (a + t1)[|a|..] == t1 && (b + t2)[|b|..] == t2 && |a + t1| == |b + t2|;
    assert (a + t1)[..|a|] == a && (b + t2)[..|b|] == b;
    var n := |fleet + "/"|;
    assert a[n..|a| - 1] == j1 && b[n..|b| - 1] == j2;
  }

  // ---- what a retry carries -------------------------------------------------------------

  /** A retry repeats the original: its target, kind, payload and secret, at once, under a new job. */
  ghost predicate Repeats(fleet: string, env: Env, c: Command, submission: string, retry: Command) {
    && retry.id == Digest(fleet + "/" + submission + "/" + c.target) && retry.jobId == submission
    && retry.target == c.target && retry.kind == c.kind && retry.payload == c.payload && retry.secret == c.secret
    && retry.retryOf == c.id && retry.delivery == Online && retry.expiresAt == 0 && retry.createdAt == env.now
  }

  /** A command may be tried again before it was answered, or after it ended in anything but success. */
  ghost predicate Retryable(log: Log, id: CommandId) {
    id in log.receipts ==> log.receipts[id].receipt.status !in {Queued, Held, Running, Done}
  }

  // ---- what the submitting node keeps -----------------------------------------------------

  /** A drive mapping is remembered without its password; other submissions leave the preferences alone. */
  lemma PreferencesMean(prior: Option<DrivePreferences>, req: SubmitRequest)
    ensures var next := PreferencesAfter(prior, Normal(req)); var payload := PayloadOf(req);
      if req.kind != "map_drive" then next == prior
      else
        && next.Some?
        && next.value.letter == (if "letter" in payload then payload["letter"] else "")
        && next.value.unc == (if "unc" in payload then payload["unc"] else "")
        && next.value.username == (if "username" in payload then payload["username"] else "")
  {
    hide Sorted, SortTexts, Normal;
    NormalMeans(req);
  }
}
