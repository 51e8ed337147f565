/** Which kinds of command there are, and which of them a target takes. */
module CommandRules {
  import opened Records
  import Admission
  import opened Journal

  /** The ten kinds. */
  ghost predicate OfKnownKind(kind: string) {
    kind in {"check", "install", "uninstall", "map_drive", "unmap_drive", "clean_downloads", "empty_recycle", "launch",
             "self_update", "diagnostics"}
  }

  /** A payload that names one of the six diagnostics profiles, and nothing else. */
  ghost predicate NamesProfile(payload: map<string, string>) {
    exists p :: p in {"system", "disks", "network", "processes", "services", "events"} && payload == map["profile" := p]
  }

  lemma KindMeans(kind: string)
    ensures ValidKind(kind) <==> OfKnownKind(kind)
  {
  }

  lemma DiagnosticsMeans(payload: map<string, string>)
    ensures ValidDiagnostics(payload) <==> NamesProfile(payload)
  {
    if |payload| == 1 && "profile" in payload {
      assert payload.Keys == {"profile"} by {
        assert {"profile"} <= payload.Keys && |payload.Keys - {"profile"}| == 0;
      }
      assert payload == map["profile" := payload["profile"]];
      assert payload["profile"] in PROFILES <==>
        payload["profile"] in {"system", "disks", "network", "processes", "services", "events"};
    }
  }

  /** A target takes a command of a kind it knows; a diagnostics run must name one profile and carry no secret. */
  ghost predicate Supported(c: Command) {
    OfKnownKind(c.kind) && (c.kind == "diagnostics" ==> NamesProfile(c.payload) && c.secret == "")
  }

  /** The status a first acceptance gives a command: exactly one of four, by its fields and the clock. */
  ghost predicate FirstAnswer(c: Command, env: Admission.Env, status: Status) {
    && (status == Failed <==> !Supported(c))
    && (status == Held <==> Supported(c) && c.delivery.Deferred? && env.clockUncertain)
    && (status == Expired <==>
          Supported(c) && c.delivery.Deferred? && !env.clockUncertain && c.expiresAt <= env.now)
    && (status == Queued <==>
          Supported(c) && (c.delivery.Deferred? ==> !env.clockUncertain && env.now < c.expiresAt))
  }

  lemma AcceptMeans(c: Command, env: Admission.Env)
    ensures FirstAnswer(c, env, AcceptStatus(c, env).0) && AcceptStatus(c, env).0 in {Queued, Held, Failed, Expired}
  {
    hide ValidKind, ValidDiagnostics, OfKnownKind, NamesProfile;
    KindMeans(c.kind);
    DiagnosticsMeans(c.payload);
  }
}
