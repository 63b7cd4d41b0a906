/** One operation, one request, one result: what receipts guarantee over whole runs. */
module Receipts {
  import opened Checks
  import opened ProvisionerModel
  import opened Frames

  ghost predicate Injective(host: Host) {
    forall a, b :: host.digest(a) == host.digest(b) ==> a == b
  }

  /** Digests never change and a completed receipt is final. */
  ghost predicate ReceiptsKept(a: Disk, b: Disk) {
    forall o | o in a.receipts ::
      && o in b.receipts && b.receipts[o].digest == a.receipts[o].digest
      && (a.receipts[o].reply.Some? ==> b.receipts[o] == a.receipts[o])
  }

  lemma PerformKeepsReceipts(host: Host, now: Moment, m: Machine, req: Change)
    ensures Perform(host, now, m, req).m.disk.receipts == m.disk.receipts
  {
    hide Create, Disable, Prepare, Revoke, Act;
    if req.CreateIdentity? {
      CreateFrame(now, m, req);
    } else if req.DisableIdentity? {
      DisableFrame(now, m, req);
    } else if Active(m.disk, req.worker) {
      if req.PrepareClone? {
        PrepareFrame(host, now, m, req);
      } else if req.allocation in m.disk.projects {
        var project := m.disk.projects[req.allocation];
        if req.RevokeAccess? {
          RevokeFrame(m, req, project);
        } else {
          ActFrame(host.git, now, m, req, project);
        }
      }
    }
  }

  lemma AdmitKeepsReceipts(host: Host, m: Machine, req: Change)
    ensures var a := Admit(host, m, req);
            ReceiptsKept(m.disk, a.m.disk) && (a == Done(a.m, None) ==> Files(a.m.disk, req, Receipt(host.digest(req), None)))
  {
  }

  lemma SavingKeepsReceipts(d: Disk, e: Disk, m: Machine, req: Request, r: Receipt, o: Id)
    requires ReceiptsKept(d, e) && m.disk.receipts == e.receipts && Files(e, req, Receipt(r.digest, None))
    ensures ReceiptsKept(d, m.disk) && (o == req.operation ==> ReceiptsKept(d, SaveReceipt(m, o, r).m.disk))
  {
  }

  /** A delivery keeps receipts. */
  lemma DeliverKeepsReceipts(host: Host, d: Disk, x: Delivery)
    ensures ReceiptsKept(d, Deliver(host, d, x).m.disk)
  {
    hide Perform, Admit, SaveReceipt, Files;
    if !x.req.InspectHealth? {
      var a := Admit(host, Machine(d, x.fuel), x.req);
      AdmitKeepsReceipts(host, Machine(d, x.fuel), x.req);
      if a.Done? && a.value.None? {
        hide ReceiptsKept;
        PerformKeepsReceipts(host, x.now, a.m, x.req);
        var p := Perform(host, x.now, a.m, x.req);
        var r := Receipt(host.digest(x.req), if p.Done? then Some(p.value) else None);
        SavingKeepsReceipts(d, a.m.disk, p.m, x.req, r, x.req.operation);
      }
    }
  }

  predicate Answers(r: Run<Reply>, reply: Reply) {
    r.Done? && r.value == reply
  }

  /** The receipt of the operation of this request. */
  predicate Files(d: Disk, req: Request, receipt: Receipt) {
    !req.InspectHealth? && req.operation in d.receipts && d.receipts[req.operation] == receipt
  }

  /** A delivery that answers leaves its receipt completed. */
  lemma AnswerIsFiled(host: Host, d: Disk, x: Delivery, reply: Reply)
    requires Answers(Deliver(host, d, x), reply) && !x.req.InspectHealth?
    ensures Files(Deliver(host, d, x).m.disk, x.req, Receipt(host.digest(x.req), Some(reply)))
  {
    hide Perform;
    var a := Admit(host, Machine(d, x.fuel), x.req);
    PerformKeepsReceipts(host, x.now, a.m, x.req);
  }

  /** What an answered operation answers again. */
  lemma CompletedAnswers(host: Host, d: Disk, x: Delivery, receipt: Receipt, reply: Reply)
    requires Files(d, x.req, receipt) && Answers(Deliver(host, d, x), reply)
    ensures receipt.digest == host.digest(x.req) && (receipt.reply.Some? ==> receipt.reply == Some(reply))
  {
    hide Perform;
  }

  lemma {:induction false} ServeKeepsReceipts(host: Host, d: Disk, early: seq<Delivery>, late: seq<Delivery>)
    ensures ReceiptsKept(Serve(host, d, early), Serve(host, d, early + late))
    decreases |late|
  {
    hide Deliver;
    if late == [] {
      assert early + late == early;
    } else {
      var shorter, x := late[..|late| - 1], late[|late| - 1];
      ServeKeepsReceipts(host, d, early, shorter);
      ServeGrows(host, d, early + shorter, x);
      assert early + late == early + shorter + [x];
      DeliverKeepsReceipts(host, Serve(host, d, early + shorter), x);
    }
  }

  lemma ServeGrows(host: Host, d: Disk, run: seq<Delivery>, x: Delivery)
    ensures Serve(host, d, run + [x]) == Deliver(host, Serve(host, d, run), x).m.disk
  {
    hide Deliver;
    assert (run + [x])[..|run|] == run;
  }

  /** Somewhere in the run this delivery was answered so. */
  ghost predicate Answered(host: Host, run: seq<Delivery>, x: Delivery, reply: Reply) {
    exists early, late :: run == early + [x] + late && Answers(Deliver(host, Serve(host, BLANK, early), x), reply)
  }

  predicate SameOperation(a: Request, b: Request) {
    !a.InspectHealth? && !b.InspectHealth? && a.operation == b.operation
  }

  /**
   * All successful answers to one operation, over any run with any crashes and retries, are to
   * the same request and carry the same result.
   */
  lemma AnswersAgree(host: Host, run: seq<Delivery>, x: Delivery, p: Reply, y: Delivery, q: Reply)
    requires Injective(host) && SameOperation(x.req, y.req)
    requires Answered(host, run, x, p) && Answered(host, run, y, q)
    ensures x.req == y.req && p == q
  {
    hide Deliver, Serve, Answers;
    var early, late :| run == early + [x] + late && Answers(Deliver(host, Serve(host, BLANK, early), x), p);
    var before, after :| run == before + [y] + after && Answers(Deliver(host, Serve(host, BLANK, before), y), q);
    if |early| < |before| {
      var between := before[|early| + 1..];
      assert before == run[..|before|] && run[..|early| + 1] == early + [x];
      assert before == early + [x] + between;
      LaterAnswerAgrees(host, early, x, p, between, y, q);
    } else if |before| < |early| {
      var between := early[|before| + 1..];
      assert early == run[..|early|] && run[..|before| + 1] == before + [y];
      assert early == before + [y] + between;
      LaterAnswerAgrees(host, before, y, q, between, x, p);
    } else {
      assert early == run[..|early|] == before && x == run[|early|] == y;
      OneAnswer(Deliver(host, Serve(host, BLANK, early), x), p, q);
    }
  }

  lemma OneAnswer(r: Run<Reply>, p: Reply, q: Reply)
    requires Answers(r, p) && Answers(r, q)
    ensures p == q
  {
  }

  lemma LaterAnswerAgrees(host: Host, early: seq<Delivery>, x: Delivery, p: Reply, between: seq<Delivery>, y: Delivery, q: Reply)
    requires Injective(host) && SameOperation(x.req, y.req)
    requires Answers(Deliver(host, Serve(host, BLANK, early), x), p)
    requires Answers(Deliver(host, Serve(host, BLANK, early + [x] + between), y), q)
    ensures x.req == y.req && p == q
  {
    hide Deliver, Serve, Answers;
    var receipt := Receipt(host.digest(x.req), Some(p));
    AnswerIsFiled(host, Serve(host, BLANK, early), x, p);
    ServeGrows(host, BLANK, early, x);
    ServeKeepsReceipts(host, BLANK, early + [x], between);
    CompletedAnswers(host, Serve(host, BLANK, early + [x] + between), y, receipt, q);
  }
}
