/** The shape of every client request's outcome. */
module Requests {
  import opened Types
  import opened Handlers

  /** Requests that the routing service sends to leaders only. */
  predicate ForLeader(req: Request) { req.IntraReq? || req.phase.PreparePhase? }

  /** Requests for other clusters are dropped. */
  predicate Concerns(req: Request, cluster: int) {
    if req.IntraReq? then req.cluster == cluster else req.senderCluster == cluster || req.receiverCluster == cluster
  }

  function CommandFor(req: Request): Command {
    match req
    case IntraReq(_, s, r, a, _) => Intra(s, r, a)
    case CrossReq(phase, _, _, s, r, a, _) =>
      match phase
      case PreparePhase => Prepare(s, r, a)
      case CommitPhase => Commit(s, r, a)
      case AbortPhase => Abort(s, r, a)
  }

  /** The entry that a server logs for a request.  Only COMMIT and ABORT look at
      the role: off the leader their entries carry term -1. */
  function EntryFor(sv: Server, req: Request): Entry {
    Entry(if ForLeader(req) then sv.term else EntryTerm(sv), |sv.log|, CommandFor(req), req.id)
  }

  /** The server logged one more entry; only its tables may also differ. */
  ghost predicate Appended(sv: Server, sv': Server, e: Entry, fd: int) {
    && sv'.log == sv.log + [e] && sv'.fds == sv.fds + [fd] && e.index == |sv.log|
    && sv' == sv.(log := sv'.log, fds := sv'.fds, bal := sv'.bal, lock := sv'.lock)
  }

  /** An answer that promises no transfer. */
  ghost predicate AnsweredNow(o: Outcome, fd: int) {
    |o.replies| == 1 && o.replies[0].fd == fd && !o.replies[0].result.Yes? && !o.replies[0].result.Success?
  }

  /** A request is dropped; or refused or acknowledged at once, perhaps with an
      entry that nobody waits on; or it waits on the entry it appended. */
  ghost predicate ClientShape(sv: Server, o: Outcome, fd: int, e: Entry) {
    && o.msgs == {}
    && (|| (o.server == sv && o.replies == [])
        || (o.server == sv && AnsweredNow(o, fd))
        || (Appended(sv, o.server, e, -1) && AnsweredNow(o, fd))
        || (Appended(sv, o.server, e, fd) && o.replies == [] && e.command.Holds()))
  }

  lemma IntraHasShape(sv: Server, req: Request, fd: int)
    requires req.IntraReq?
    ensures ClientShape(sv, OnIntra(sv, req, fd), fd, EntryFor(sv, req))
  {
  }

  lemma PrepareHasShape(sv: Server, cluster: int, req: Request, fd: int)
    requires req.CrossReq? && req.phase.PreparePhase?
    ensures ClientShape(sv, OnPrepare(sv, cluster, req, fd), fd, EntryFor(sv, req))
  {
    hide Refuses;
  }

  lemma CommitHasShape(sv: Server, cluster: int, req: Request, fd: int)
    requires req.CrossReq? && req.phase.CommitPhase?
    ensures ClientShape(sv, OnCommit(sv, cluster, req, fd), fd, EntryFor(sv, req))
  {
    hide CrossApply, HasCommit;
  }

  lemma AbortHasShape(sv: Server, req: Request, fd: int)
    requires req.CrossReq? && req.phase.AbortPhase?
    ensures ClientShape(sv, OnAbort(sv, req, fd), fd, EntryFor(sv, req))
  {
    hide HasAbort;
  }

  lemma ClientHasShape(sv: Server, cluster: int, req: Request, fd: int)
    ensures ClientShape(sv, OnClient(sv, cluster, req, fd), fd, EntryFor(sv, req))
    ensures OnClient(sv, cluster, req, fd).server == sv || Concerns(req, cluster)
  {
    hide OnIntra, OnPrepare, OnCommit, OnAbort, EntryFor;
    match req
    case IntraReq(_, _, _, _, _) => IntraHasShape(sv, req, fd);
    case CrossReq(phase, _, _, _, _, _, _) =>
      match phase
      case PreparePhase => PrepareHasShape(sv, cluster, req, fd);
      case CommitPhase => CommitHasShape(sv, cluster, req, fd);
      case AbortPhase => AbortHasShape(sv, req, fd);
  }

  /** What any client request does to a server: perhaps one more log entry. */
  ghost predicate Grew(sv: Server, sv': Server, e: Entry) {
    && sv'.heard == sv.heard && sv'.role == sv.role && sv'.term == sv.term && sv'.votedFor == sv.votedFor
    && sv'.votes == sv.votes && sv'.commit == sv.commit && sv'.coming == sv.coming && sv'.matched == sv.matched
    && (sv'.log == sv.log || sv'.log == sv.log + [e])
  }

  lemma ShapeGrows(sv: Server, o: Outcome, fd: int, e: Entry)
    requires ClientShape(sv, o, fd, e)
    ensures Grew(sv, o.server, e) && o.msgs == {} && (o.server == sv || o.server.log == sv.log + [e])
  {
  }

  lemma ClientGrows(sv: Server, cluster: int, req: Request, fd: int)
    ensures var o := OnClient(sv, cluster, req, fd); var e := EntryFor(sv, req);
            && Grew(sv, o.server, e) && o.msgs == {}
            && (o.server == sv || (o.server.log == sv.log + [e] && Concerns(req, cluster)))
  {
    hide OnClient, ClientShape, Grew;
    ClientHasShape(sv, cluster, req, fd);
    ShapeGrows(sv, OnClient(sv, cluster, req, fd), fd, EntryFor(sv, req));
  }
}
