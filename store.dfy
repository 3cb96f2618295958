/**
 * The global client store (src/store/useStore.ts): the auth slice mirrored into the persisted
 * token, the toast queue with its module-wide counter, and the socket-connected flag.
 */
module Store {
  import opened Wrappers
  import opened Text
  import opened Types
  import opened Seqs
  import opened Browser

  /** `toast-${counter}-${now}`. */
  function ToastId(counter: nat, now: nat): string {
    "toast-" + NatToString(counter) + "-" + NatToString(now)
  }

  /** In digits followed by `-`, the first `-` sits right after the digits. */
  lemma FirstDashAfterDigits(a: string, x: string)
    requires AllDigits(a)
    ensures IndexOf(a + "-" + x, "-") == Some(|a|)
  {
    var s := a + "-" + x;
    assert OccursAt(s, "-", |a|) by {
      assert s[|a|..|a| + 1] == "-";
    }
    forall k | 0 <= k < |a| ensures !OccursAt(s, "-", k) {
      assert s[k..k + 1] == [a[k]];
    }
  }

  /** A digit string, `-`, then anything: the digits and the rest can be read back. */
  lemma DigitsDashSplit(a: string, x: string, b: string, y: string)
    requires AllDigits(a) && AllDigits(b)
    requires a + "-" + x == b + "-" + y
    ensures a == b && x == y
  {
    var t := a + "-" + x;
    FirstDashAfterDigits(a, x);
    FirstDashAfterDigits(b, y);
    assert a == t[..|a|];
    assert b == t[..|b|];
    assert x == t[|a| + 1..];
    assert y == t[|b| + 1..];
  }

  /** Two ids are equal only when both the counter and the clock value are: the first `-` after the prefix ends the counter. */
  lemma ToastIdInjective(k1: nat, t1: nat, k2: nat, t2: nat)
    requires ToastId(k1, t1) == ToastId(k2, t2)
    ensures k1 == k2 && t1 == t2
  {
    var a, b := NatToString(k1), NatToString(k2);
    var x, y := NatToString(t1), NatToString(t2);
    assert a + "-" + x == b + "-" + y by {
      var s := ToastId(k1, t1);
      assert s == "toast-" + (a + "-" + x);
      assert s == "toast-" + (b + "-" + y);
      assert a + "-" + x == s[6..];
      assert b + "-" + y == s[6..];
    }
    DigitsDashSplit(a, x, b, y);
    if k1 != k2 {
      NatToStringInjective(k1, k2);
    }
    if t1 != t2 {
      NatToStringInjective(t1, t2);
    }
  }

  predicate IdsDistinct(ts: seq<Toast>) {
    forall i, j :: 0 <= i < j < |ts| ==> ts[i].id != ts[j].id
  }

  /** `toasts.filter((t) => t.id !== id)`. */
  function WithoutToast(ts: seq<Toast>, id: string): seq<Toast> {
    Filter(ts, (t: Toast) => t.id != id)
  }

  /** Removal drops every toast with the id, keeps the others, and keeps ids distinct. */
  lemma WithoutToastSound(ts: seq<Toast>, id: string)
    requires IdsDistinct(ts)
    ensures IdsDistinct(WithoutToast(ts, id))
    ensures forall t :: t in WithoutToast(ts, id) <==> t in ts && t.id != id
    ensures var r, ks := WithoutToast(ts, id), KeptPositions(ts, (t: Toast) => t.id != id);
      |r| == |ks| && forall k :: 0 <= k < |r| ==> r[k] == ts[ks[k]]
  {
    FilterKeepsOrder(ts, (t: Toast) => t.id != id, (a: Toast, b: Toast) => a.id != b.id);
    FilterAtKeptPositions(ts, (t: Toast) => t.id != id);
  }

  /** Removing an id nobody has leaves the queue as it was. */
  lemma WithoutUnknownToast(ts: seq<Toast>, id: string)
    requires forall i :: 0 <= i < |ts| ==> ts[i].id != id
    ensures WithoutToast(ts, id) == ts
  {
    FilterKeepsAll(ts, (t: Toast) => t.id != id);
  }

  /** An id was issued by a call that saw a counter no larger than `counter`. */
  ghost predicate IssuedUpTo(id: string, counter: nat) {
    exists k, t :: 1 <= k <= counter && id == ToastId(k, t)
  }

  class AppStore {
    var user: Option<SafeUser>
    var token: Option<string>
    const storage: LocalStorage
    var toasts: seq<Toast>
    /** The module-level counter that `addToast` pre-increments. */
    var toastCounter: nat
    var connected: bool

    /** Every toast's id was issued by an earlier `addToast`, and no two queued toasts share an id. */
    ghost predicate Valid()
      reads this
    {
      IdsDistinct(toasts) && forall i :: 0 <= i < |toasts| ==> IssuedUpTo(toasts[i].id, toastCounter)
    }

    /** The initial state: signed out, the token read back from storage, no toasts, not connected. */
    constructor (storage: LocalStorage)
      ensures Valid()
      ensures this.storage == storage && user == None && token == storage.token
      ensures toasts == [] && toastCounter == 0 && !connected
    {
      this.storage := storage;
      user := None;
      token := storage.token;
      toasts := [];
      toastCounter := 0;
      connected := false;
    }

    /** `addToast`: exactly one toast is appended, with a fresh id from the incremented counter and the clock. */
    method AddToast(kind: ToastType, title: string, message: string, now: nat)
      requires Valid()
      modifies this
      ensures Valid()
      ensures toastCounter == old(toastCounter) + 1
      ensures toasts == old(toasts) + [Toast(ToastId(toastCounter, now), kind, title, message)]
      ensures forall i :: 0 <= i < |old(toasts)| ==> toasts[i].id != ToastId(toastCounter, now)
      ensures user == old(user) && token == old(token) && connected == old(connected)
    {
      toastCounter := toastCounter + 1;
      var id := ToastId(toastCounter, now);
      forall i | 0 <= i < |toasts| ensures toasts[i].id != id {
        var k, t :| 1 <= k <= toastCounter - 1 && toasts[i].id == ToastId(k, t);
        if toasts[i].id == id {
          ToastIdInjective(k, t, toastCounter, now);
        }
      }
      toasts := toasts + [Toast(id, kind, title, message)];
      assert IssuedUpTo(id, toastCounter);
    }

    /** `removeToast`, also what the five-second auto-dismiss does for the toast it added. */
    method RemoveToast(id: string)
      requires Valid()
      modifies this`toasts
      ensures Valid()
      ensures toasts == WithoutToast(old(toasts), id)
    {
      WithoutToastSound(toasts, id);
      ghost var before := toasts;
      toasts := WithoutToast(toasts, id);
      forall i | 0 <= i < |toasts| ensures IssuedUpTo(toasts[i].id, toastCounter) {
        assert toasts[i] in before;
      }
    }

    /** `setAuth`: the token is persisted, then user and token are set. */
    method SetAuth(u: SafeUser, t: string)
      modifies this`user, this`token, storage
      ensures user == Some(u) && token == Some(t) && storage.token == Some(t)
    {
      storage.token := Some(t);
      user := Some(u);
      token := Some(t);
    }

    method SetUser(u: SafeUser)
      modifies this`user
      ensures user == Some(u)
    {
      user := Some(u);
    }

    /** `logout`: the persisted token is removed and user and token are cleared. */
    method Logout()
      modifies this`user, this`token, storage
      ensures user == None && token == None && storage.token == None
    {
      storage.token := None;
      user := None;
      token := None;
    }

    method SetConnected(v: bool)
      modifies this`connected
      ensures connected == v
    {
      connected := v;
    }
  }
}
