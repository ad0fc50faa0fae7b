/** The toast queue of src/components/ui/toaster.tsx: toasts are appended
    with a fresh id, removed by id, and a timer drops the oldest one. */
module Toasts {
  import opened Wrappers
  import Seqs

  datatype ToastType = Default | Success | Error | Warning

  datatype Toast = Toast(id: string, title: string, description: Option<string>, kind: ToastType)

  /** What a caller of `toast(...)` passes: everything but the id. */
  datatype ToastInput = ToastInput(title: string, description: Option<string>, kind: ToastType)

  predicate DistinctIds(toasts: seq<Toast>)
  {
    forall i, j :: 0 <= i < j < |toasts| ==> toasts[i].id != toasts[j].id
  }

  function IdIsNot(id: string): Toast -> bool
  {
    (t: Toast) => t.id != id
  }

  /** `prev.filter((t) => t.id !== id)`. */
  function WithoutId(toasts: seq<Toast>, id: string): (r: seq<Toast>)
    ensures |r| <= |toasts|
    ensures forall i :: 0 <= i < |r| ==> r[i].id != id && r[i] in toasts
    ensures forall i :: 0 <= i < |toasts| && toasts[i].id != id ==> toasts[i] in r
  {
    var r := Seqs.Filter(IdIsNot(id), toasts);
    assert forall i :: 0 <= i < |r| ==> IdIsNot(id)(r[i]);
    forall i | 0 <= i < |toasts| && toasts[i].id != id ensures toasts[i] in r {
      assert IdIsNot(id)(toasts[i]);
    }
    r
  }

  /** Removal keeps the remaining toasts in their order. */
  lemma WithoutIdConcat(a: seq<Toast>, b: seq<Toast>, id: string)
    ensures WithoutId(a + b, id) == WithoutId(a, id) + WithoutId(b, id)
  {
    Seqs.FilterConcat(IdIsNot(id), a, b);
  }

  /** Removing an id no toast has changes nothing. */
  lemma WithoutAbsentId(toasts: seq<Toast>, id: string)
    requires forall i :: 0 <= i < |toasts| ==> toasts[i].id != id
    ensures WithoutId(toasts, id) == toasts
  {
    forall i | 0 <= i < |toasts| ensures IdIsNot(id)(toasts[i]) {
    }
    Seqs.FilterKeepsAll(IdIsNot(id), toasts);
  }

  /** Removing twice is removing once. */
  lemma WithoutIdIdempotent(toasts: seq<Toast>, id: string)
    ensures WithoutId(WithoutId(toasts, id), id) == WithoutId(toasts, id)
  {
    WithoutAbsentId(WithoutId(toasts, id), id);
  }

  /** A toast added with a fresh id and then removed by that id leaves the queue as it was. */
  lemma AddThenRemove(toasts: seq<Toast>, input: ToastInput, id: string)
    requires forall i :: 0 <= i < |toasts| ==> toasts[i].id != id
    ensures WithoutId(toasts + [Toast(id, input.title, input.description, input.kind)], id) == toasts
  {
    var t := Toast(id, input.title, input.description, input.kind);
    WithoutIdConcat(toasts, [t], id);
    WithoutAbsentId(toasts, id);
    Seqs.FilterSingleton(IdIsNot(id), t);
  }

  /** Removal keeps ids distinct. */
  lemma {:induction false} WithoutIdKeepsDistinct(toasts: seq<Toast>, id: string)
    requires DistinctIds(toasts)
    ensures DistinctIds(WithoutId(toasts, id))
  {
    if toasts != [] {
      var rest := toasts[1..];
      assert DistinctIds(rest) by {
        forall i, j | 0 <= i < j < |rest| ensures rest[i].id != rest[j].id {
          assert rest[i] == toasts[i + 1] && rest[j] == toasts[j + 1];
        }
      }
      WithoutIdKeepsDistinct(rest, id);
      assert toasts == [toasts[0]] + rest;
      WithoutIdConcat([toasts[0]], rest, id);
      Seqs.FilterSingleton(IdIsNot(id), toasts[0]);
      var tail := WithoutId(rest, id);
      forall k | 0 <= k < |tail| ensures tail[k].id != toasts[0].id {
        var p :| 0 <= p < |rest| && rest[p] == tail[k];
        assert rest[p] == toasts[p + 1];
      }
    }
  }

  /** The timer step: `prev.slice(1)` when there is a toast, nothing otherwise. */
  function DropOldest(toasts: seq<Toast>): (r: seq<Toast>)
    ensures toasts == [] ==> r == []
    ensures toasts != [] ==> [toasts[0]] + r == toasts
  {
    if |toasts| > 0 then toasts[1..] else toasts
  }

  /** Appending with a fresh id and dropping the oldest both keep ids distinct. */
  lemma QueueStepsKeepDistinct(toasts: seq<Toast>, t: Toast)
    requires DistinctIds(toasts)
    ensures (forall i :: 0 <= i < |toasts| ==> toasts[i].id != t.id) ==> DistinctIds(toasts + [t])
    ensures DistinctIds(DropOldest(toasts))
  {
    if toasts != [] {
      var r := DropOldest(toasts);
      assert forall i :: 0 <= i < |r| ==> r[i] == toasts[i + 1];
    }
  }

  /** `getToastClass`: its own class for success, error and warning, the primary class otherwise. */
  function ToastClass(kind: ToastType): (c: string)
    ensures kind == Success ==> c == "bg-success-500 text-white"
    ensures kind == Error ==> c == "bg-error-500 text-white"
    ensures kind == Warning ==> c == "bg-warning-500 text-white"
    ensures c == "bg-primary-500 text-white" <==> kind == Default
  {
    match kind
    case Success => "bg-success-500 text-white"
    case Error => "bg-error-500 text-white"
    case Warning => "bg-warning-500 text-white"
    case Default => "bg-primary-500 text-white"
  }

  /** Each kind of toast is drawn in a colour of its own. */
  lemma {:induction false} ToastClassInjective(a: ToastType, b: ToastType)
    ensures ToastClass(a) == ToastClass(b) <==> a == b
  {
    if a != b {
      var ca, cb := ToastClass(a), ToastClass(b);
      assert ca[3] != cb[3];
    }
  }

  /** The `ToasterProvider`'s list of toasts. */
  class ToastQueue {
    var toasts: seq<Toast>

    constructor ()
      ensures toasts == []
    {
      toasts := [];
    }

    /** `addToast`: the new toast goes last, under the id the caller drew. */
    method AddToast(input: ToastInput, id: string)
      modifies this
      ensures toasts == old(toasts) + [Toast(id, input.title, input.description, input.kind)]
    {
      toasts := toasts + [Toast(id, input.title, input.description, input.kind)];
    }

    /** `removeToast`. */
    method RemoveToast(id: string)
      modifies this
      ensures toasts == WithoutId(old(toasts), id)
    {
      toasts := Seqs.Filter(IdIsNot(id), toasts);
    }

    /** The timer firing. */
    method TimerFires()
      modifies this
      ensures toasts == DropOldest(old(toasts))
    {
      if |toasts| > 0 {
        toasts := toasts[1..];
      }
    }
  }
}
