/**
 * The dialog pool of `ConcealedDialogDispatcherFactory`: `aquireDialog`
 * reuses the dialog released longest ago or creates one when none is
 * pooled, and initialises it before handing it out; `releaseDialog` puts a
 * dialog back at the end. Each runs under the pool's lock, so each is one
 * atomic step here.
 */
module DialogPools {
  /** A dialog, known by the order of its creation. */
  datatype Dialog = Dialog(id: nat)

  /** What one acquisition hands out and leaves behind. */
  datatype Acquired = Acquired(dialog: Dialog, pool: seq<Dialog>, created: nat)

  /** `aquireDialog` on a pool that has created `created` dialogs so far. */
  function AcquireStep(pool: seq<Dialog>, created: nat): Acquired {
    if |pool| == 0 then Acquired(Dialog(created), pool, created + 1)
    else Acquired(pool[0], pool[1..], created)
  }

  /** `k` acquisitions in a row, with no release in between: the dialogs in hand-out order. */
  datatype Batch = Batch(handed: seq<Dialog>, pool: seq<Dialog>, created: nat)

  function AcquireMany(pool: seq<Dialog>, created: nat, k: nat): Batch
    decreases k
  {
    if k == 0 then Batch([], pool, created)
    else
      var a := AcquireStep(pool, created);
      var rest := AcquireMany(a.pool, a.created, k - 1);
      Batch([a.dialog] + rest.handed, rest.pool, rest.created)
  }

  /** The fresh dialogs numbered `lo` up to, not including, `hi`. */
  function FreshDialogs(lo: nat, hi: nat): (r: seq<Dialog>)
    requires lo <= hi
    ensures |r| == hi - lo
    ensures forall i :: 0 <= i < |r| ==> r[i] == Dialog(lo + i)
    decreases hi - lo
  {
    if lo == hi then [] else [Dialog(lo)] + FreshDialogs(lo + 1, hi)
  }

  /** No dialog occurs twice. */
  predicate Distinct(s: seq<Dialog>) {
    forall i, j :: 0 <= i < j < |s| ==> s[i] != s[j]
  }

  /**
   * What a pool that has created `created` dialogs can hold: dialogs it
   * created itself, each at most once (a dialog is released only by the
   * dispatcher that acquired it, and only once).
   */
  predicate PoolValid(pool: seq<Dialog>, created: nat) {
    Distinct(pool) && forall i :: 0 <= i < |pool| ==> pool[i].id < created
  }

  /**
   * An empty pool creates a new dialog and stays empty; a non-empty pool
   * hands out its first dialog and keeps the rest in order. On a valid pool
   * the dialog handed out is no longer pooled, and the pool stays valid.
   */
  lemma AcquireStepSpec(pool: seq<Dialog>, created: nat)
    ensures var a := AcquireStep(pool, created);
      (pool == [] ==> a.pool == [] && a.created == created + 1 && a.dialog == Dialog(created)) &&
      (pool != [] ==> a.dialog == pool[0] && [a.dialog] + a.pool == pool && a.created == created) &&
      (PoolValid(pool, created) ==> PoolValid(a.pool, a.created) && a.dialog.id < a.created && a.dialog !in a.pool)
  {
    var a := AcquireStep(pool, created);
    if pool != [] && PoolValid(pool, created) {
      forall j | 0 <= j < |a.pool|
        ensures a.pool[j] != a.dialog
      {
        assert a.pool[j] == pool[j + 1];
      }
    }
  }

  /**
   * `k` acquisitions hand out the pooled dialogs first, oldest first, then
   * dialogs created in numbering order; no dialog is lost or invented.
   */
  lemma {:induction false} AcquireManySpec(pool: seq<Dialog>, created: nat, k: nat)
    decreases k
    ensures var b := AcquireMany(pool, created, k);
      |b.handed| == k &&
      (k <= |pool| ==> b.handed == pool[..k] && b.pool == pool[k..] && b.created == created) &&
      (k > |pool| ==> b.handed == pool + FreshDialogs(created, created + k - |pool|) && b.pool == [] &&
                      b.created == created + k - |pool|)
  {
    if k > 0 {
      var a := AcquireStep(pool, created);
      AcquireManySpec(a.pool, a.created, k - 1);
      var rest := AcquireMany(a.pool, a.created, k - 1);
      if pool == [] {
        assert FreshDialogs(created, created + k) == [Dialog(created)] + FreshDialogs(created + 1, created + k);
      } else if k <= |pool| {
        assert pool[..k] == [pool[0]] + pool[1..][..k - 1];
        assert pool[1..][k - 1..] == pool[k..];
      } else {
        assert pool == [pool[0]] + pool[1..];
      }
    }
  }

  /** Dialogs released into an empty pool come back in the order they were released. */
  lemma ReleasedComeBackInOrder(released: seq<Dialog>, created: nat)
    ensures AcquireMany(released, created, |released|).handed == released
    ensures AcquireMany(released, created, |released|).created == created
  {
    AcquireManySpec(released, created, |released|);
  }

  /**
   * From a valid pool, `k` acquisitions hand out no dialog twice, none of
   * them is still pooled, and what stays pooled is still valid.
   */
  lemma {:induction false} AcquireManyDistinct(pool: seq<Dialog>, created: nat, k: nat)
    requires PoolValid(pool, created)
    ensures var b := AcquireMany(pool, created, k);
      Distinct(b.handed) && PoolValid(b.pool, b.created) &&
      forall i :: 0 <= i < |b.handed| ==> b.handed[i].id < b.created && b.handed[i] !in b.pool
  {
    AcquireManySpec(pool, created, k);
    var b := AcquireMany(pool, created, k);
    if k <= |pool| {
      forall i | 0 <= i < k
        ensures b.handed[i] !in b.pool
      {
        forall j | 0 <= j < |b.pool|
          ensures b.pool[j] != b.handed[i]
        {
          assert b.pool[j] == pool[k + j] && b.handed[i] == pool[i];
        }
      }
      forall i, j | 0 <= i < j < |b.pool|
        ensures b.pool[i] != b.pool[j]
      {
        assert b.pool[i] == pool[k + i] && b.pool[j] == pool[k + j];
      }
    } else {
      var newer := FreshDialogs(created, created + k - |pool|);
      forall i | 0 <= i < |b.handed|
        ensures b.handed[i] == (if i < |pool| then pool[i] else Dialog(created + i - |pool|))
      {
        if i >= |pool| {
          assert b.handed[i] == newer[i - |pool|];
        }
      }
    }
  }

  class DialogPool {
    /** The pooled dialogs, released longest ago first. */
    var pool: seq<Dialog>
    /** How many dialogs `createDialog` has made. */
    var created: nat
    /** Every dialog `initDialog` has prepared, in order. */
    var initialised: seq<Dialog>

    /** Every pooled dialog was created here and is pooled once. */
    predicate Valid()
      reads this
    {
      PoolValid(pool, created)
    }

    constructor ()
      ensures Valid()
      ensures pool == [] && created == 0 && initialised == []
    {
      pool := [];
      created := 0;
      initialised := [];
    }

    /** `aquireDialog`: one `AcquireStep`, and the dialog handed out is initialised first. */
    method Acquire() returns (dialog: Dialog)
      requires Valid()
      modifies this
      ensures Valid() && dialog.id < created && dialog !in pool
      ensures var a := AcquireStep(old(pool), old(created));
        dialog == a.dialog && pool == a.pool && created == a.created
      ensures initialised == old(initialised) + [dialog]
    {
      if |pool| == 0 {
        dialog := CreateDialog();
      } else {
        dialog := pool[0];
        pool := pool[1..];
      }
      InitDialog(dialog);
      AcquireStepSpec(old(pool), old(created));
    }

    /** `releaseDialog`: the dialog goes to the end of the pool; nothing is discarded. */
    method Release(dialog: Dialog)
      requires Valid() && dialog.id < created && dialog !in pool
      modifies this
      ensures Valid()
      ensures pool == old(pool) + [dialog]
      ensures created == old(created) && initialised == old(initialised)
    {
      pool := pool + [dialog];
    }

    /** `new Dialog(...)`: a dialog distinct from every one created before, none of which it can be pooled as. */
    method CreateDialog() returns (dialog: Dialog)
      requires Valid()
      modifies this
      ensures Valid() && dialog !in pool && forall i :: 0 <= i < old(created) ==> dialog != Dialog(i)
      ensures dialog == Dialog(old(created)) && created == old(created) + 1
      ensures pool == old(pool) && initialised == old(initialised)
    {
      dialog := Dialog(created);
      created := created + 1;
    }

    method InitDialog(dialog: Dialog)
      requires Valid()
      modifies this
      ensures Valid()
      ensures initialised == old(initialised) + [dialog]
      ensures pool == old(pool) && created == old(created)
    {
      initialised := initialised + [dialog];
    }
  }

  /**
   * Two dialogs acquired from a new pool and released again come back in
   * release order, after which the next acquisition creates a third dialog,
   * distinct from both.
   */
  method ReleaseThenAcquire() returns (d1: Dialog, d2: Dialog, first: Dialog, second: Dialog, third: Dialog)
    ensures d1 != d2
    ensures first == d2 && second == d1
    ensures third != d1 && third != d2
  {
    var p := new DialogPool();
    d1 := p.Acquire();
    d2 := p.Acquire();
    p.Release(d2);
    p.Release(d1);
    first := p.Acquire();
    second := p.Acquire();
    third := p.Acquire();
  }
}
