/** Replies of a stable leader: each connection is answered at most once, and
    SUCCESS or YES only for an entry that is Raft-committed. */
module Replies {
  import opened Types
  import opened Handlers
  import opened Leader
  import opened Requests

  ghost predicate Waiting(sv: Server, i: int) { 0 <= i < |sv.fds| && sv.fds[i] != -1 }

  ghost predicate Answered(replies: seq<Reply>, fd: int) {
    exists r :: 0 <= r < |replies| && replies[r].fd == fd
  }

  /** Waiting connections belong to pending entries, are all different, and
      have not been answered; no connection was answered twice. */
  ghost predicate AnsweredOnce(sv: Server, replies: seq<Reply>) {
    && (forall i :: Waiting(sv, i) ==> Pending(sv, i) && sv.log[i].command.Holds() && !Answered(replies, sv.fds[i]))
    && (forall i, j :: Waiting(sv, i) && Waiting(sv, j) && sv.fds[i] == sv.fds[j] ==> i == j)
    && (forall r, q :: 0 <= r < |replies| && 0 <= q < |replies| && replies[r].fd == replies[q].fd ==> r == q)
  }

  /** Entry i answers the transaction with this result, and is Raft-committed. */
  ghost predicate Backed(sv: Server, i: int, id: int, result: Result) {
    && 0 <= i <= sv.commit && i < |sv.log| && sv.log[i].id == id
    && (result.Yes? ==> sv.log[i].command.Prepare?)
    && (result.Success? ==> sv.log[i].command.Intra?)
  }

  ghost predicate RepliesTrue(sv: Server, replies: seq<Reply>) {
    forall r :: 0 <= r < |replies| && (replies[r].result.Yes? || replies[r].result.Success?) ==>
      exists i :: Backed(sv, i, replies[r].id, replies[r].result)
  }

  /** A connection that no request used before. */
  ghost predicate Fresh(sv: Server, replies: seq<Reply>, fd: int) {
    fd != -1 && !Answered(replies, fd) && forall i :: Waiting(sv, i) ==> sv.fds[i] != fd
  }

  ghost predicate AnswerAt(rep: Reply, entries: seq<Entry>, fds: seq<int>, i: int)
    requires |entries| == |fds|
  {
    0 <= i < |entries| && Answer(entries[i], fds[i]) == [rep]
  }

  ghost predicate HasSource(rep: Reply, entries: seq<Entry>, fds: seq<int>)
    requires |entries| == |fds|
  {
    exists i :: AnswerAt(rep, entries, fds, i)
  }

  ghost predicate AllAnswers(all: seq<Reply>, entries: seq<Entry>, fds: seq<int>)
    requires |entries| == |fds|
  {
    && (forall r :: 0 <= r < |all| ==> HasSource(all[r], entries, fds))
    && (forall r, q :: 0 <= r < q < |all| ==> all[r].fd != all[q].fd)
  }

  lemma AnswerFields(rep: Reply, e: Entry, fd: int)
    requires Answer(e, fd) == [rep]
    ensures rep == Reply(fd, e.id, if e.command.Prepare? then Yes else Success) && fd != -1 && e.command.Holds()
  {
    assert rep == [rep][0];
  }

  /** Each answer belongs to one entry of the batch, and no two share a connection. */
  lemma {:induction false} AnswersSpec(entries: seq<Entry>, fds: seq<int>)
    requires |entries| == |fds|
    requires forall i, j :: 0 <= i < j < |fds| && fds[i] != -1 ==> fds[i] != fds[j]
    ensures AllAnswers(Answers(entries, fds), entries, fds)
  {
    if entries == [] {
      assert Answers(entries, fds) == [];
    } else {
      var n := |entries| - 1;
      AnswersSpec(entries[..n], fds[..n]);
      var before, all := Answers(entries[..n], fds[..n]), Answers(entries, fds);
      assert all == before + Answer(entries[n], fds[n]);
      forall r | 0 <= r < |all|
        ensures HasSource(all[r], entries, fds)
      {
        if r < |before| {
          assert HasSource(before[r], entries[..n], fds[..n]);
          var i :| AnswerAt(before[r], entries[..n], fds[..n], i);
          assert AnswerAt(all[r], entries, fds, i);
        } else {
          assert AnswerAt(all[r], entries, fds, n);
        }
      }
      forall r, q | 0 <= r < q < |all| ensures all[r].fd != all[q].fd {
        assert all[r] == before[r];
        if q == |before| {
          assert HasSource(before[r], entries[..n], fds[..n]);
          var i :| AnswerAt(before[r], entries[..n], fds[..n], i);
          AnswerFields(before[r], entries[i], fds[i]);
          AnswerFields(all[q], entries[n], fds[n]);
        }
      }
    }
  }

  // ---- Client requests ----------------------------------------------------

  lemma AppendReplies(sv: Server, sv': Server, e: Entry, fd: int, replies: seq<Reply>)
    requires AnsweredOnce(sv, replies) && RepliesTrue(sv, replies) && sv.commit < |sv.log|
    requires Appended(sv, sv', e, fd) && (fd != -1 ==> Fresh(sv, replies, fd) && e.command.Holds())
    ensures AnsweredOnce(sv', replies) && RepliesTrue(sv', replies)
  {
    assert forall i :: Waiting(sv', i) && i < |sv.log| ==> Waiting(sv, i) && Pending(sv, i);
    assert forall i, id, r :: Backed(sv, i, id, r) ==> Backed(sv', i, id, r);
  }

  /** An answer on a fresh connection that promises nothing. */
  lemma ReplyFresh(sv: Server, replies: seq<Reply>, rep: Reply)
    requires AnsweredOnce(sv, replies) && RepliesTrue(sv, replies) && Fresh(sv, replies, rep.fd)
    requires !rep.result.Yes? && !rep.result.Success?
    ensures AnsweredOnce(sv, replies + [rep]) && RepliesTrue(sv, replies + [rep])
  {
    var all := replies + [rep];
    forall i | Waiting(sv, i) ensures !Answered(all, sv.fds[i]) {
      assert !Answered(replies, sv.fds[i]);
      forall r | 0 <= r < |all| ensures all[r].fd != sv.fds[i] {
        if r < |replies| { assert all[r] == replies[r]; }
      }
    }
    forall r | 0 <= r < |replies| ensures all[r] == replies[r] && replies[r].fd != rep.fd {}
  }

  lemma ClientReplies(sv: Server, cluster: int, req: Request, fd: int, replies: seq<Reply>)
    requires AnsweredOnce(sv, replies) && RepliesTrue(sv, replies) && Fresh(sv, replies, fd) && sv.commit < |sv.log|
    ensures var o := OnClient(sv, cluster, req, fd);
            AnsweredOnce(o.server, replies + o.replies) && RepliesTrue(o.server, replies + o.replies)
  {
    hide OnClient, AnsweredOnce, RepliesTrue, EntryFor;
    var o, e := OnClient(sv, cluster, req, fd), EntryFor(sv, req);
    ClientHasShape(sv, cluster, req, fd);
    if o.replies == [] {
      assert replies + o.replies == replies;
      if o.server != sv { AppendReplies(sv, o.server, e, fd, replies); }
    } else {
      if o.server != sv {
        AppendReplies(sv, o.server, e, -1, replies);
        assert forall i :: Waiting(o.server, i) ==> Waiting(sv, i) && o.server.fds[i] == sv.fds[i];
      }
      ReplyFresh(o.server, replies, o.replies[0]);
      assert o.replies == [o.replies[0]];
    }
  }

  /** A request answered FAIL or NO leaves the server as it was. */
  lemma RefusalChangesNothing(sv: Server, cluster: int, req: Request, fd: int)
    ensures var o := OnClient(sv, cluster, req, fd);
            |o.replies| <= 1
            && (|o.replies| == 1 && (o.replies[0].result.Fail? || o.replies[0].result.No?) ==> o.server == sv)
            && (o.replies == [] ==> o.server == sv || o.server.fds == sv.fds + [fd])
  {
  }

  // ---- Raft-committing ----------------------------------------------------

  /** Every reply of a commit answers an entry that enters the committed prefix
      with it. */
  lemma CommitAnswers(sv: Server, r: nat)
    requires sv.commit <= sv.coming < |sv.log|
    requires forall i, j :: Waiting(sv, i) && Waiting(sv, j) && sv.fds[i] == sv.fds[j] ==> i == j
    requires r < |CommitComing(sv).replies|
    ensures var rep := CommitComing(sv).replies[r];
            exists i :: sv.commit < i <= sv.coming && Waiting(sv, i) && rep.fd == sv.fds[i]
                        && Backed(CommitComing(sv).server, i, rep.id, rep.result)
  {
    var lo, hi := sv.commit + 1, sv.coming + 1;
    var batch, fds := sv.log[lo..hi], sv.fds[lo..hi];
    BatchDistinct(sv, lo, hi);
    AnswersSpec(batch, fds);
    var rep := Answers(batch, fds)[r];
    assert HasSource(rep, batch, fds);
    var j :| AnswerAt(rep, batch, fds, j);
    AnswerFields(rep, batch[j], fds[j]);
    assert Waiting(sv, lo + j);
    assert Backed(CommitComing(sv).server, lo + j, rep.id, rep.result);
  }

  /** The reply that a held-up client gets when its entry is Raft-committed. */
  function ReplyFor(e: Entry, fd: int): Reply {
    Reply(fd, e.id, if e.command.Prepare? then Yes else Success)
  }

  lemma {:induction false} AnswersCover(entries: seq<Entry>, fds: seq<int>, i: int)
    requires |entries| == |fds| && 0 <= i < |entries| && fds[i] != -1 && entries[i].command.Holds()
    ensures ReplyFor(entries[i], fds[i]) in Answers(entries, fds)
  {
    var n := |entries| - 1;
    if i < n {
      AnswersCover(entries[..n], fds[..n], i);
    } else {
      assert Answer(entries[n], fds[n]) == [ReplyFor(entries[n], fds[n])];
      assert ReplyFor(entries[n], fds[n]) in Answer(entries[n], fds[n]);
    }
  }

  /** The answers to a batch are those of its waiting entries, one each, in the
      order of the log: the x-th answers entry idx[x]. */
  lemma {:induction false} AnswersInOrder(entries: seq<Entry>, fds: seq<int>) returns (idx: seq<nat>)
    requires |entries| == |fds|
    ensures |idx| == |Answers(entries, fds)|
    ensures forall x :: 0 <= x < |idx| ==>
              idx[x] < |entries| && Answers(entries, fds)[x] == ReplyFor(entries[idx[x]], fds[idx[x]])
    ensures forall x, y :: 0 <= x < y < |idx| ==> idx[x] < idx[y]
    ensures forall i: nat :: i < |entries| ==> (i in idx <==> fds[i] != -1 && entries[i].command.Holds())
  {
    if entries == [] {
      idx := [];
    } else {
      var n := |entries| - 1;
      var before := AnswersInOrder(entries[..n], fds[..n]);
      var last := fds[n] != -1 && entries[n].command.Holds();
      idx := before + (if last then [n] else []);
      forall i: nat | i < |entries| ensures i in idx <==> fds[i] != -1 && entries[i].command.Holds() {
        if i < n { assert entries[..n][i] == entries[i] && fds[..n][i] == fds[i] && (i in idx <==> i in before); }
      }
    }
  }

  /** The other half: a commit answers every client that waits on one of its
      entries, a PREPARE with YES and a transfer with SUCCESS. */
  lemma CommitAnswersAll(sv: Server, i: int)
    requires sv.commit < i <= sv.coming < |sv.log| && Waiting(sv, i) && sv.log[i].command.Holds()
    ensures ReplyFor(sv.log[i], sv.fds[i]) in CommitComing(sv).replies
  {
    hide Answers, Fold, Release, Cleared;
    var lo, hi := sv.commit + 1, sv.coming + 1;
    AnswersCover(sv.log[lo..hi], sv.fds[lo..hi], i - lo);
  }

  lemma BatchDistinct(sv: Server, lo: int, hi: int)
    requires 0 <= lo <= hi <= |sv.log|
    requires forall i, j :: Waiting(sv, i) && Waiting(sv, j) && sv.fds[i] == sv.fds[j] ==> i == j
    ensures forall i, j :: 0 <= i < j < hi - lo && sv.fds[lo..hi][i] != -1 ==> sv.fds[lo..hi][i] != sv.fds[lo..hi][j]
  {
    forall i, j | 0 <= i < j < hi - lo && sv.fds[lo..hi][i] != -1
      ensures sv.fds[lo..hi][i] != sv.fds[lo..hi][j]
    {
      assert Waiting(sv, lo + i);
      assert sv.fds[lo + j] != -1 ==> Waiting(sv, lo + j);
    }
  }

  lemma CommitRepliesOnce(sv: Server, replies: seq<Reply>)
    requires AnsweredOnce(sv, replies) && sv.commit <= sv.coming < |sv.log|
    ensures var o := CommitComing(sv); AnsweredOnce(o.server, replies + o.replies)
  {
    var o := CommitComing(sv);
    var all := replies + o.replies;
    BatchDistinct(sv, sv.commit + 1, sv.coming + 1);
    AnswersSpec(sv.log[sv.commit + 1..sv.coming + 1], sv.fds[sv.commit + 1..sv.coming + 1]);
    forall i | Waiting(o.server, i)
      ensures Waiting(sv, i) && sv.coming < i && o.server.fds[i] == sv.fds[i]
    {
      assert Waiting(sv, i);
    }
    forall r | 0 <= r < |o.replies|
      ensures forall q :: 0 <= q < |replies| ==> replies[q].fd != o.replies[r].fd
      ensures forall i :: Waiting(o.server, i) ==> o.server.fds[i] != o.replies[r].fd
    {
      CommitAnswers(sv, r);
    }
    assert forall r :: 0 <= r < |all| ==> all[r] == (if r < |replies| then replies[r] else o.replies[r - |replies|]);
  }

  lemma CommitRepliesTrue(sv: Server, replies: seq<Reply>)
    requires AnsweredOnce(sv, replies) && RepliesTrue(sv, replies) && sv.commit <= sv.coming < |sv.log|
    ensures var o := CommitComing(sv); RepliesTrue(o.server, replies + o.replies)
  {
    var o := CommitComing(sv);
    var all := replies + o.replies;
    forall r | 0 <= r < |all| && (all[r].result.Yes? || all[r].result.Success?)
      ensures exists i :: Backed(o.server, i, all[r].id, all[r].result)
    {
      if r < |replies| {
        var i :| Backed(sv, i, replies[r].id, replies[r].result);
        assert Backed(o.server, i, all[r].id, all[r].result);
      } else {
        CommitAnswers(sv, r - |replies|);
      }
    }
  }

  lemma SameReplies(sv: Server, sv': Server, replies: seq<Reply>)
    requires AnsweredOnce(sv, replies) && RepliesTrue(sv, replies)
    requires sv'.log == sv.log && sv'.fds == sv.fds && sv'.commit == sv.commit
    ensures AnsweredOnce(sv', replies) && RepliesTrue(sv', replies)
  {
    assert forall i :: Waiting(sv', i) <==> Waiting(sv, i);
    assert forall i :: Pending(sv', i) <==> Pending(sv, i);
    assert forall i, id, r :: Backed(sv, i, id, r) ==> Backed(sv', i, id, r);
  }

  lemma AppendRspReplies(sv: Server, m: Msg, replies: seq<Reply>)
    requires m.AppendRsp? && AnsweredOnce(sv, replies) && RepliesTrue(sv, replies)
    requires sv.commit <= sv.coming < |sv.log|
    ensures var o := OnAppendRsp(sv, m);
            AnsweredOnce(o.server, replies + o.replies) && RepliesTrue(o.server, replies + o.replies)
  {
    var o := OnAppendRsp(sv, m);
    var sv1 := sv.(granted := sv.granted + 1);
    if sv.role.Leader? && m.term == sv.term && m.success && MayCommit(sv1) {
      SameReplies(sv, sv1, replies);
      CommitRepliesOnce(sv1, replies);
      CommitRepliesTrue(sv1, replies);
      SameReplies(CommitComing(sv1).server, o.server, replies + o.replies);
    } else {
      assert replies + o.replies == replies;
      SameReplies(sv, o.server, replies);
    }
  }
}
