/**
 * Every step of checkout, payments, maintenance and administration keeps the invariant.
 *
 * New catalogue rows, new orders, expired and cancelled sessions, claimed events,
 * reads of payments and refunds, the refund transaction, the two purges of what was
 * never charged, deletions and resends. Each step is split into what it does to the
 * tables, as a move of the order table or of the grants, and the request it leaves
 * behind or ends.
 */
module ShopSteps {
  import opened Prelude
  import opened Store
  import opened Protocol
  import opened Invariant
  import opened OrderProof
  import opened QueueProof
  import opened GrantProof

  lemma StayKeeps(w: World)
    requires Inv(w)
    ensures Later(w, w)
  {
    hide OrdersLater, GrantsLater, Inv;
    OrdersStay(w.db.orders);
    GrantsStay(w.db.grants);
  }

  // ---------------------------------------------------------------- catalogue and checkout

  lemma AddProductKeeps(w: World, x: ProductId)
    requires Inv(w)
    ensures Inv(ApplyPayment(w, AddProduct(x))) && Later(w, ApplyPayment(w, AddProduct(x)))
  {
    hide OrdersOk, IntentsUnique, RequestsOk, QueueInv, GrantInv, EventsOk, Later, LinesOk;
    CatalogueMove(w, w.db.variants, w.db.products + {x});
    assert ApplyPayment(w, AddProduct(x))
           == w.(db := w.db.(variants := w.db.variants, products := w.db.products + {x}));
  }

  lemma AddVariantKeeps(w: World, v: VariantId, x: ProductId)
    requires Inv(w)
    ensures Inv(ApplyPayment(w, AddVariant(v, x))) && Later(w, ApplyPayment(w, AddVariant(v, x)))
  {
    hide OrdersOk, IntentsUnique, RequestsOk, QueueInv, GrantInv, EventsOk, Later;
    StayKeeps(w);
    if x in w.db.products && v !in w.db.variants {
      CatalogueMove(w, w.db.variants[v := x], w.db.products);
      assert ApplyPayment(w, AddVariant(v, x))
             == w.(db := w.db.(variants := w.db.variants[v := x], products := w.db.products));
    }
  }

  lemma CatalogueMove(w: World, variants: map<VariantId, ProductId>, products: set<ProductId>)
    requires Inv(w) && LinesOk(w.db.orders, variants) && VariantsOk(variants, products)
    ensures var w' := w.(db := w.db.(variants := variants, products := products)); Inv(w') && Later(w, w')
  {
    hide OrdersOk, IntentsUnique, LinesOk, VariantsOk, RequestsOk, QueueInv, GrantInv, EventsOk;
    hide OrdersLater, GrantsLater;
    assert QueueInv(w.(db := w.db.(variants := variants, products := products))) by {
      SameQueue(w, variants, products);
    }
    assert GrantInv(w.(db := w.db.(variants := variants, products := products))) by {
      SameGrants(w, variants, products);
    }
    OrdersStay(w.db.orders);
    GrantsStay(w.db.grants);
  }

  lemma SameQueue(w: World, variants: map<VariantId, ProductId>, products: set<ProductId>)
    requires QueueInv(w)
    ensures QueueInv(w.(db := w.db.(variants := variants, products := products)))
  {
    hide JobsOk, KeysUnique, Covered, CountsOk, WorkersOk;
  }

  lemma SameGrants(w: World, variants: map<VariantId, ProductId>, products: set<ProductId>)
    requires GrantInv(w)
    ensures GrantInv(w.(db := w.db.(variants := variants, products := products)))
  {
    hide GrantsOk, OneLive, DownloadsOk, BudgetOk;
  }

  lemma CheckoutKeeps(w: World, o: OrderId, lines: seq<Line>, email: string)
    requires Inv(w)
    ensures Inv(DoCheckout(w, o, lines, email)) && Later(w, DoCheckout(w, o, lines, email))
  {
    hide QueueInv, GrantInv, EventsOk, Later;
    StayKeeps(w);
    if o in w.usedOrders || lines == [] || (exists i :: 0 <= i < |lines| && !Sellable(w.db, lines[i])) {
    } else {
      var row := Order(PENDING_PAYMENT, None, None, None, w.now, email, lines);
      NewOrderMove(w, o, row);
    }
  }

  lemma NewOrderTables(w: World, o: OrderId, row: Order)
    requires OrderInv(w) && Covered(w.db.orders, w.db.jobs) && o !in w.usedOrders && OrderRowOk(row) && row.paidAt.None?
    requires forall i :: 0 <= i < |row.lines| ==> row.lines[i].variantId in w.db.variants
    ensures var after := w.db.orders[o := row];
            && Kept(w.db.orders, after) && IntentsUnique(after) && LinesOk(after, w.db.variants)
            && RequestsOk(w.requests, after, w.usedOrders + {o}) && Covered(after, w.db.jobs)
  {
    CoveredFrame(w.db.orders, w.db.orders[o := row], w.db.jobs);
  }

  lemma NewOrderMove(w: World, o: OrderId, row: Order)
    requires Inv(w) && o !in w.usedOrders && OrderRowOk(row) && row.paidAt.None?
    requires forall i :: 0 <= i < |row.lines| ==> row.lines[i].variantId in w.db.variants
    ensures var w' := w.(db := SetOrder(w.db, o, row), usedOrders := w.usedOrders + {o}); Inv(w') && Later(w, w')
  {
    hide OrdersOk, IntentsUnique, LinesOk, VariantsOk, RequestsOk, JobsOk, KeysUnique, Covered, CountsOk,
         WorkersOk, GrantsOk, OneLive, DownloadsOk, BudgetOk, EventsOk, OrdersLater, GrantsLater, OrderRowOk;
    var after := w.db.orders[o := row];
    NewOrderTables(w, o, row);
    JobsFrame(w.db.orders, after, w.db.jobs);
    WorkersFrame(w, after);
    GrantsFrame(w.db.orders, after, w.db.grants);
    GrantsStay(w.db.grants);
  }

  // ---------------------------------------------------------------- payments

  lemma SessionKeeps(w: World, o: OrderId)
    requires Inv(w)
    ensures Inv(w.(db := ExpireSession(w.db, o))) && Later(w, w.(db := ExpireSession(w.db, o)))
    ensures Inv(w.(db := CancelUnpaid(w.db, o))) && Later(w, w.(db := CancelUnpaid(w.db, o)))
  {
    hide QueueInv, GrantInv, EventsOk, Later;
    StayKeeps(w);
    if o in w.db.orders {
      assert OrderRowOk(w.db.orders[o]);
      if w.db.orders[o].status in {PENDING_PAYMENT, CANCELLED} {
        SetOrderKeeps(w, o, w.db.orders[o].(status := CANCELLED));
      }
    }
  }

  lemma ReceiveKeeps(w: World, p: Pid, e: EventId, payload: Payload)
    requires Inv(w)
    ensures Inv(DoReceive(w, p, e, payload)) && Later(w, DoReceive(w, p, e, payload))
  {
    hide OrdersOk, IntentsUnique, LinesOk, VariantsOk, QueueInv, GrantInv, Later;
    StayKeeps(w);
    if p !in w.requests && e !in w.db.events {
      var requests := w.requests[p := EventClaimed(e, payload)];
      EventMove(w, requests, w.db.events + {e}, w.dispatched[e := 0]);
    }
  }

  lemma EventMove(w: World, requests: map<Pid, Request>, events: set<EventId>, dispatched: map<EventId, nat>)
    requires Inv(w)
    requires RequestsOk(requests, w.db.orders, w.usedOrders) && EventsOk(requests, events, dispatched)
    ensures var w' := w.(db := w.db.(events := events), requests := requests, dispatched := dispatched);
            Inv(w') && Later(w, w')
  {
    hide OrdersOk, IntentsUnique, LinesOk, VariantsOk, RequestsOk, JobsOk, KeysUnique, Covered, CountsOk,
         WorkersOk, GrantsOk, OneLive, DownloadsOk, BudgetOk, EventsOk, OrdersLater, GrantsLater;
    OrdersStay(w.db.orders);
    GrantsStay(w.db.grants);
  }

  /** Taking the claimed event out of its request counts its one dispatch. */
  lemma TakeEventKeeps(w: World, p: Pid)
    requires Inv(w) && p in w.requests && w.requests[p].EventClaimed?
    ensures var e := w.requests[p].event;
            var w1 := w.(requests := Drop(w.requests, p), dispatched := w.dispatched[e := w.dispatched[e] + 1]);
            e in w.dispatched && Inv(w1) && Later(w, w1)
  {
    hide OrdersOk, IntentsUnique, LinesOk, VariantsOk, QueueInv, GrantInv, Later;
    var e := w.requests[p].event;
    EventMove(w, Drop(w.requests, p), w.db.events, w.dispatched[e := w.dispatched[e] + 1]);
    assert w.db.(events := w.db.events) == w.db;
  }

  lemma ReadPaymentKeeps(w: World, p: Pid, o: OrderId, intent: IntentId)
    requires Inv(w)
    ensures Inv(ReadPayment(w, p, o, intent)) && Later(w, ReadPayment(w, p, o, intent))
  {
    hide QueueInv, GrantInv, EventsOk, Later;
    EndRequestKeeps(w, p);
    if o in w.db.orders {
      SetRequestKeeps(w, p, PaymentRead(o, intent, w.db.orders[o].lines));
    }
  }

  lemma ReadRefundKeeps(w: World, p: Pid, o: OrderId, total: bool)
    requires Inv(w)
    ensures Inv(ReadRefund(w, p, o, total)) && Later(w, ReadRefund(w, p, o, total))
  {
    hide QueueInv, GrantInv, EventsOk, Later;
    EndRequestKeeps(w, p);
    SetRequestKeeps(w, p, RefundRead(o));
  }

  lemma DispatchKeeps(w: World, p: Pid)
    requires Inv(w)
    ensures Inv(DoDispatch(w, p)) && Later(w, DoDispatch(w, p))
  {
    hide Inv, Later;
    StayKeeps(w);
    OrdersUsed(w);
    if p in w.requests && w.requests[p].EventClaimed? {
      var e := w.requests[p].event;
      TakeEventKeeps(w, p);
      var w1 := w.(requests := Drop(w.requests, p), dispatched := w.dispatched[e := w.dispatched[e] + 1]);
      DispatchedKeeps(w1, p, w.requests[p].payload);
      LaterTrans(w, w1, DoDispatch(w, p));
    }
  }

  lemma DispatchedKeeps(w: World, p: Pid, payload: Payload)
    requires Inv(w)
    ensures payload.PaymentSucceeded? ==>
              var w' := ReadPayment(w, p, payload.paid, payload.intent); Inv(w') && Later(w, w')
    ensures payload.SessionExpired? ==>
              var w' := w.(db := ExpireSession(w.db, payload.expired));
              Inv(w') && Later(w, w')
    ensures payload.ChargeRefunded? ==>
              var w' := ReadRefund(w, p, payload.refunded, payload.total); Inv(w') && Later(w, w')
    ensures Later(w, w)
  {
    hide *;
    StayKeeps(w);
    match payload
    case PaymentSucceeded(o, intent) => ReadPaymentKeeps(w, p, o, intent);
    case SessionExpired(o) => SessionKeeps(w, o);
    case ChargeRefunded(o, total) => ReadRefundKeeps(w, p, o, total);
    case Other =>
  }

  lemma OrdersUsed(w: World)
    requires Inv(w)
    ensures w.db.orders.Keys <= w.usedOrders
  {
    hide QueueInv, GrantInv, EventsOk;
  }

  lemma RefundRowsKeep(w: World, o: OrderId)
    requires Inv(w) && CommitRefund(w.db, o, w.now).Some?
    ensures var w' := w.(db := CommitRefund(w.db, o, w.now).value); Inv(w') && Later(w, w')
  {
    hide IntentsUnique, LinesOk, VariantsOk, RequestsOk, QueueInv, GrantInv, EventsOk, Later;
    var row := w.db.orders[o].(status := REFUNDED);
    assert OrderRowOk(w.db.orders[o]);
    SetOrderKeeps(w, o, row);
    RevokeAfter(w, w.(db := SetOrder(w.db, o, row)), set i | 0 <= i < |w.db.orders[o].lines| :: ItemKey(o, i));
  }

  lemma RevokeAfter(w: World, w1: World, items: set<ItemKey>)
    requires Inv(w) && Inv(w1) && Later(w, w1)
    ensures var w' := w1.(db := w1.db.(grants := RevokeLive(w1.db.grants, items, w1.now))); Inv(w') && Later(w, w')
  {
    hide *;
    OrdersUsed(w);
    RevokeKeeps(w1, items);
    LaterTrans(w, w1, w1.(db := w1.db.(grants := RevokeLive(w1.db.grants, items, w1.now))));
  }

  lemma EndAfter(w: World, w1: World, p: Pid)
    requires Inv(w) && Inv(w1) && Later(w, w1)
    ensures Inv(EndRequest(w1, p)) && Later(w, EndRequest(w1, p))
  {
    hide *;
    OrdersUsed(w);
    EndRequestKeeps(w1, p);
    LaterTrans(w, w1, EndRequest(w1, p));
  }

  lemma RefundKeeps(w: World, p: Pid)
    requires Inv(w)
    ensures Inv(DoRefundCommit(w, p)) && Later(w, DoRefundCommit(w, p))
  {
    hide Inv, Later, CommitRefund;
    StayKeeps(w);
    EndRequestKeeps(w, p);
    if p in w.requests && w.requests[p].RefundRead? {
      var o := w.requests[p].order;
      if CommitRefund(w.db, o, w.now).Some? {
        RefundRowsKeep(w, o);
        EndAfter(w, w.(db := CommitRefund(w.db, o, w.now).value), p);
      }
    }
  }

  // ---------------------------------------------------------------- maintenance and administration

  lemma PurgeUnpaidKeeps(w: World)
    requires Inv(w)
    ensures Inv(DoPurgeUnpaid(w)) && Later(w, DoPurgeUnpaid(w))
  {
    hide Inv, Later;
    StayKeeps(w);
    var victims := StaleUnpaid(w.db, Before(w.now, DIAS_RETENCION_SIN_COBRO));
    if DeleteOrders(w.db, victims).Some? {
      DeleteOrdersKeeps(w, victims);
    }
  }

  lemma CheckRetryKeeps(w: World, p: Pid, o: OrderId)
    requires Inv(w)
    ensures Inv(DoCheckRetry(w, p, o)) && Later(w, DoCheckRetry(w, p, o))
  {
    hide IntentsUnique, LinesOk, VariantsOk, RequestsOk, QueueInv, GrantInv, EventsOk, Later;
    StayKeeps(w);
    if o in w.db.orders && w.db.orders[o].status == NEEDS_REVIEW {
      assert OrderRowOk(w.db.orders[o]);
      SetRequestKeeps(w, p, RetryChecked(o));
    }
  }

  lemma MoveRetryKeeps(w: World, p: Pid)
    requires Inv(w)
    ensures Inv(DoMoveRetry(w, p)) && Later(w, DoMoveRetry(w, p))
  {
    hide IntentsUnique, LinesOk, VariantsOk, QueueInv, GrantInv, EventsOk, Later;
    StayKeeps(w);
    if p in w.requests && w.requests[p].RetryRequeued? {
      var o := w.requests[p].order;
      assert RequestOk(w.requests[p], w.db.orders, w.usedOrders);
      EndRequestKeeps(w, p);
      if o in w.db.orders {
        assert OrderRowOk(w.db.orders[o]);
        var row := w.db.orders[o].(status := PAID);
        SetOrderKeeps(w, o, row);
        var w1 := w.(db := SetOrder(w.db, o, row));
        EndAfter(w, w1, p);
      }
    }
  }

  lemma DeletionKeeps(w: World, p: Pid)
    requires Inv(w)
    ensures Inv(DoCommitDeletion(w, p)) && Later(w, DoCommitDeletion(w, p))
  {
    hide OrdersOk, IntentsUnique, RequestsOk, QueueInv, GrantInv, EventsOk, Later;
    StayKeeps(w);
    if p in w.requests && w.requests[p].DeletionChecked? {
      var x := w.requests[p].product;
      EndRequestKeeps(w, p);
      if DeleteProduct(w.db, x).Some? {
        var victims := UnpaidOf(w.db, x);
        var db1 := DeleteOrders(w.db, victims).value;
        var w1 := w.(db := db1);
        DeleteOrdersKeeps(w, victims);
        DropProductKeeps(w1, x);
        var w2 := w1.(db := DropProduct(db1, x).value);
        EndRequestKeeps(w2, p);
        OrdersUsed(w);
        OrdersUsed(w1);
        LaterTrans(w, w1, w2);
        LaterTrans(w, w2, EndRequest(w2, p));
      }
    }
  }

  lemma DropProductKeeps(w: World, x: ProductId)
    requires Inv(w) && DropProduct(w.db, x).Some?
    ensures var w' := w.(db := DropProduct(w.db, x).value); Inv(w') && Later(w, w')
  {
    hide OrdersOk, IntentsUnique, RequestsOk, QueueInv, GrantInv, EventsOk, Later;
    var db1 := DropProduct(w.db, x).value;
    forall o, i | o in w.db.orders && 0 <= i < |w.db.orders[o].lines|
      ensures w.db.orders[o].lines[i].variantId in db1.variants
    {
      assert !RefersTo(w.db, o, x);
    }
    CatalogueMove(w, db1.variants, db1.products);
  }

  lemma DropVariantKeeps(w: World, p: Pid)
    requires Inv(w)
    ensures Inv(DoCommitVariant(w, p)) && Later(w, DoCommitVariant(w, p))
  {
    hide OrdersOk, IntentsUnique, RequestsOk, QueueInv, GrantInv, EventsOk, Later;
    StayKeeps(w);
    if p in w.requests && w.requests[p].VariantChecked? {
      var v := w.requests[p].variant;
      EndRequestKeeps(w, p);
      if DeleteVariant(w.db, v).Some? {
        var db1 := DeleteVariant(w.db, v).value;
        CatalogueMove(w, db1.variants, db1.products);
        var w1 := w.(db := db1);
        EndAfter(w, w1, p);
      }
    }
  }

  lemma ResendKeeps(w: World, p: Pid, o: OrderId, email: string, ids: seq<GrantId>)
    requires Inv(w)
    ensures Inv(DoReadResend(w, p, o, email)) && Later(w, DoReadResend(w, p, o, email))
    ensures Inv(DoIssueResend(w, p, ids)) && Later(w, DoIssueResend(w, p, ids))
  {
    hide IntentsUnique, LinesOk, VariantsOk, QueueInv, GrantInv, EventsOk, Later;
    StayKeeps(w);
    if o in w.db.orders && Purchased(w.db.orders[o]) {
      assert OrderRowOk(w.db.orders[o]);
      SetRequestKeeps(w, p, ResendRead(o, w.db.orders[o].lines));
    }
    if p in w.requests && w.requests[p].ResendRead? {
      var ResendRead(o, lines) := w.requests[p];
      assert RequestOk(w.requests[p], w.db.orders, w.usedOrders);
      EndRequestKeeps(w, p);
      if |ids| == |Deliverables(lines)| && FreshGrants(w, ids) {
        IssueGrantsKeeps(w, o, lines, ids);
        var w1 := IssueGrants(w, o, lines, ids);
        EndAfter(w, w1, p);
      }
    }
  }
}
