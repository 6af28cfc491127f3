/** Webhook tokens over whole runs: rotation leaves one working token, and a superseded one never works again. */
module Tokens {
  import opened Prelude
  import opened Models
  import opened Webhooks
  import opened GatewayRuns
  import opened Ledger

  /** Rows are never removed, rehashed, moved to another device or enabled again. */
  ghost predicate RowsPersist(ws: seq<Webhook>, ws': seq<Webhook>) {
    && |ws| <= |ws'|
    && forall i: nat | i < |ws| ::
         && ws'[i].tokenHash == ws[i].tokenHash && ws'[i].deviceId == ws[i].deviceId
         && (ws'[i].enabled ==> ws[i].enabled)
  }

  lemma StepKeepsRows(w: World, db: Db, op: GatewayOp)
    requires Schema(db)
    ensures RowsPersist(db.webhooks, Step(w, db, op).webhooks)
  {
    match op
    case TunnelOp(op') => TunnelEffect(w, db, op');
    case Create(_, _) => WebhookOpEffect(w, db, op);
    case Rotate(_, _) => WebhookOpEffect(w, db, op);
    case Deliver(_, _, _, _, _) => DeliverEffect(w, db, op);
  }

  lemma {:induction false} RunKeepsRows(w: World, before: seq<GatewayOp>, more: seq<GatewayOp>)
    ensures RowsPersist(Run(w, before).webhooks, Run(w, before + more).webhooks)
  {
    hide Step;
    if more == [] {
      assert before + more == before;
    } else {
      var init, op := more[..|more| - 1], more[|more| - 1];
      RunKeepsRows(w, before, init);
      assert (before + more)[..|before + more| - 1] == before + init;
      BooksAlwaysBalance(w, before + init);
      StepKeepsRows(w, Run(w, before + init), op);
      hide Books;
    }
  }

  /** Where hashes are unique, lookup finds the one enabled row of a token or nothing, and never trips over two. */
  lemma LookupIsExact(env: Env, db: Db, token: string)
    requires HashesUnique(db.webhooks)
    ensures Lookup(env, db, token) != Err(Crash)
    ensures forall i: nat | i < |db.webhooks| ::
              Lookup(env, db, token) == Ok(i) <==> Matches(env, db.webhooks[i], token)
    ensures Lookup(env, db, token).Err? <==> forall i | 0 <= i < |db.webhooks| :: !Matches(env, db.webhooks[i], token)
  {
    var ws := db.webhooks;
    forall i, j | 0 <= i < j < |ws| && Matches(env, ws[i], token)
      ensures !Matches(env, ws[j], token)
    {
    }
  }

  /** In every reachable state a token resolves to at most one webhook, and lookup says which. */
  lemma LookupNeverAmbiguous(w: World, ops: seq<GatewayOp>, token: string)
    ensures var db := Run(w, ops);
            && Lookup(w.env, db, token) != Err(Crash)
            && forall i: nat | i < |db.webhooks| ::
                 Lookup(w.env, db, token) == Ok(i) <==> Matches(w.env, db.webhooks[i], token)
  {
    BooksAlwaysBalance(w, ops);
    LookupIsExact(w.env, Run(w, ops), token);
  }

  /** A rotation either fails and stores nothing, or leaves the device exactly one enabled webhook, which is the
      one the new token resolves to; other devices' webhooks are untouched. */
  lemma RotationLeavesOne(w: World, ops: seq<GatewayOp>, d: string, token: string)
    ensures var db := Run(w, ops);
            var (db', r) := RotateWebhook(w.env, db, d, token);
            var last := |db.webhooks|;
            && (r.Ok? <==> d in db.devices
                           && forall i | 0 <= i < last :: db.webhooks[i].tokenHash != w.env.sha256(token))
            && (r.Err? ==> db' == db)
            && (r.Ok? ==>
                  && |db'.webhooks| == last + 1
                  && (forall i: nat | i <= last ::
                        db'.webhooks[i].deviceId == d && db'.webhooks[i].enabled <==> i == last)
                  && (forall i: nat | i < last && db.webhooks[i].deviceId != d :: db'.webhooks[i] == db.webhooks[i])
                  && Lookup(w.env, db', token) == Ok(last))
  {
    BooksAlwaysBalance(w, ops);
    var db := Run(w, ops);
    assert Schema(db);
    RotateStores(w.env, db, d, token);
    RotatedRowsMean(w.env, db.webhooks, d, token);
    hide Run, Books, Schema, Lookup, RotateWebhook, RotatedRows;
    if d in db.devices {
      RotatedRowsFit(w.env, db, d, token);
      var db' := db.(webhooks := RotatedRows(w.env, db.webhooks, d, token));
      if Schema(db') {
        SchemaHashes(db');
        LookupIsExact(w.env, db', token);
      }
    }
  }

  function RotatedRows(env: Env, ws: seq<Webhook>, d: string, token: string): seq<Webhook> {
    DisableAll(ws, d) + [NewWebhook(env, d, token)]
  }

  lemma RotatedRowsMean(env: Env, ws: seq<Webhook>, d: string, token: string)
    ensures var ws' := RotatedRows(env, ws, d, token);
            && |ws'| == |ws| + 1 && Matches(env, ws'[|ws|], token)
            && (forall i: nat | i <= |ws| :: ws'[i].deviceId == d && ws'[i].enabled <==> i == |ws|)
            && (forall i: nat | i < |ws| && ws[i].deviceId != d :: ws'[i] == ws[i])
  {
  }

  lemma RotateStores(env: Env, db: Db, d: string, token: string)
    ensures var db' := db.(webhooks := RotatedRows(env, db.webhooks, d, token));
            RotateWebhook(env, db, d, token) ==
              if d !in db.devices then (db, Err(NotFound("device not found")))
              else if Schema(db') then (db', Ok(()))
              else (db, Err(IntegrityError))
  {
    hide Schema;
  }

  lemma SchemaHashes(db: Db)
    requires Schema(db)
    ensures HashesUnique(db.webhooks)
  {
  }

  /** The rotated rows satisfy the constraints exactly when the new token's hash is new. */
  lemma RotatedRowsFit(env: Env, db: Db, d: string, token: string)
    requires Schema(db) && d in db.devices
    ensures Schema(db.(webhooks := RotatedRows(env, db.webhooks, d, token))) <==>
            forall i | 0 <= i < |db.webhooks| :: db.webhooks[i].tokenHash != env.sha256(token)
  {
    var n, ws' := |db.webhooks|, RotatedRows(env, db.webhooks, d, token);
    assert forall i | 0 <= i < n :: ws'[i].tokenHash == db.webhooks[i].tokenHash;
    assert forall i | 0 <= i <= n :: ws'[i].deviceId in db.devices;
    if i :| 0 <= i < n && db.webhooks[i].tokenHash == env.sha256(token) {
      assert ws'[i].tokenHash == ws'[n].tokenHash;
    } else {
      assert HashesUnique(ws');
    }
  }

  /** A token whose webhook is disabled is refused for ever, whatever requests follow. */
  lemma DisabledForever(w: World, before: seq<GatewayOp>, more: seq<GatewayOp>, token: string, i: nat)
    requires i < |Run(w, before).webhooks|
    requires Run(w, before).webhooks[i].tokenHash == w.env.sha256(token) && !Run(w, before).webhooks[i].enabled
    ensures Lookup(w.env, Run(w, before + more), token) == Err(Unauthorized("invalid webhook token"))
  {
    RunKeepsRows(w, before, more);
    BooksAlwaysBalance(w, before + more);
    var db := Run(w, before + more);
    LookupIsExact(w.env, db, token);
    hide Run, Books;
    forall j | 0 <= j < |db.webhooks|
      ensures !Matches(w.env, db.webhooks[j], token)
    {
      if j != i {
        assert db.webhooks[j].tokenHash != db.webhooks[i].tokenHash;
      }
    }
  }

  /** A token that worked for a device stops working at the next successful rotation and in every continuation. */
  lemma RotationSupersedes(
      w: World, before: seq<GatewayOp>, more: seq<GatewayOp>, oldToken: string, d: string, newToken: string)
    requires var db := Run(w, before);
             && Lookup(w.env, db, oldToken).Ok?
             && db.webhooks[Lookup(w.env, db, oldToken).value].deviceId == d
             && RotateWebhook(w.env, db, d, newToken).1.Ok?
    ensures Lookup(w.env, Run(w, before + [Rotate(d, newToken)] + more), oldToken)
            == Err(Unauthorized("invalid webhook token"))
  {
    var db := Run(w, before);
    var i := Lookup(w.env, db, oldToken).value;
    var rotated := before + [Rotate(d, newToken)];
    assert rotated[..|before|] == before;
    assert Run(w, rotated) == RotateWebhook(w.env, db, d, newToken).0;
    RotationLeavesOne(w, before, d, newToken);
    var row := Run(w, rotated).webhooks[i];
    assert !row.enabled && row.tokenHash == db.webhooks[i].tokenHash by {
      RunKeepsRows(w, before, [Rotate(d, newToken)]);
    }
    hide Run, RotateWebhook, Lookup;
    DisabledForever(w, rotated, more, oldToken, i);
  }
}
