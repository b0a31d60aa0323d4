/**
 * The toast queue behind `useToast`: `addToast` appends a toast with a fresh
 * id from a module-wide counter, `removeToast` filters out one id. The
 * four-second timer that removes each toast is not modelled; its effect is
 * one `Remove` call.
 */
module Toasts {
  import opened Js

  datatype ToastKind = Success | Error | Warning

  datatype Toast = Toast(id: int, message: string, kind: ToastKind)

  /** The rendered toasts and the counter `nextId`, which starts at 0. */
  datatype Queue = Queue(toasts: seq<Toast>, lastId: int)

  const Empty := Queue([], 0)

  /**
   * What every reachable queue satisfies: ids strictly increase along the
   * list and none exceeds the counter.
   */
  predicate Valid(q: Queue) {
    && (forall i, j :: 0 <= i < j < |q.toasts| ==> q.toasts[i].id < q.toasts[j].id)
    && (forall i :: 0 <= i < |q.toasts| ==> q.toasts[i].id <= q.lastId)
  }

  /** `addToast(message, kind)`: the new toast goes last, with an id above every earlier one. */
  function Add(q: Queue, message: string, kind: ToastKind): (r: Queue)
    ensures Valid(q) ==> Valid(r)
    ensures |r.toasts| == |q.toasts| + 1
    ensures r.toasts[..|q.toasts|] == q.toasts
    ensures r.toasts[|q.toasts|].message == message && r.toasts[|q.toasts|].kind == kind
    ensures r.toasts[|q.toasts|].id > q.lastId
    ensures Valid(q) ==> forall i :: 0 <= i < |q.toasts| ==> q.toasts[i].id < r.toasts[|q.toasts|].id
  {
    var id := q.lastId + 1;
    Queue(q.toasts + [Toast(id, message, kind)], id)
  }

  /** The toasts whose id differs from `id`, in their order. */
  function Without(ts: seq<Toast>, id: int): (r: seq<Toast>)
    ensures |r| <= |ts|
    ensures forall t :: t in r <==> t in ts && t.id != id
  {
    Filter(ts, (t: Toast) => t.id != id)
  }

  /** Filtering keeps the survivors in their original relative order. */
  lemma {:induction false} WithoutKeepsOrder(ts: seq<Toast>, id: int)
    requires forall i, j :: 0 <= i < j < |ts| ==> ts[i].id < ts[j].id
    ensures forall i, j :: 0 <= i < j < |Without(ts, id)| ==> Without(ts, id)[i].id < Without(ts, id)[j].id
    decreases |ts|
  {
    if |ts| > 0 {
      var init := ts[..|ts| - 1];
      WithoutKeepsOrder(init, id);
      var w := Without(init, id);
      forall i | 0 <= i < |w|
        ensures w[i].id < ts[|ts| - 1].id
      {
        assert w[i] in init;
      }
      assert init + [ts[|ts| - 1]] == ts;
      FilterAppend(init, [ts[|ts| - 1]], (t: Toast) => t.id != id);
    }
  }

  /** Filtering a list without the id leaves it as it was. */
  lemma WithoutAbsent(ts: seq<Toast>, id: int)
    requires forall i :: 0 <= i < |ts| ==> ts[i].id != id
    ensures Without(ts, id) == ts
  {
    FilterKeepsAll(ts, (t: Toast) => t.id != id);
  }

  /** `removeToast(id)`: exactly the toast with that id leaves, the rest keep their order. */
  function Remove(q: Queue, id: int): (r: Queue)
    ensures Valid(q) ==> Valid(r)
    ensures r.lastId == q.lastId
    ensures forall t :: t in r.toasts <==> t in q.toasts && t.id != id
  {
    assert Valid(q) ==> Valid(Queue(Without(q.toasts, id), q.lastId)) by {
      if Valid(q) {
        WithoutKeepsOrder(q.toasts, id);
      }
    }
    Queue(Without(q.toasts, id), q.lastId)
  }

  /** Removing an id that is not shown changes nothing. */
  lemma RemoveAbsent(q: Queue, id: int)
    requires forall i :: 0 <= i < |q.toasts| ==> q.toasts[i].id != id
    ensures Remove(q, id) == q
  {
    WithoutAbsent(q.toasts, id);
  }

  /** So removing twice is removing once, which is what the timer and a click may both do. */
  lemma RemoveIdempotent(q: Queue, id: int)
    ensures Remove(Remove(q, id), id) == Remove(q, id)
  {
    var r := Remove(q, id);
    forall i | 0 <= i < |r.toasts|
      ensures r.toasts[i].id != id
    {
      assert r.toasts[i] in r.toasts;
    }
    RemoveAbsent(r, id);
  }

  /** Removing a toast that was just added restores the queue, apart from the counter. */
  lemma RemoveUndoesAdd(q: Queue, message: string, kind: ToastKind)
    requires Valid(q)
    ensures Remove(Add(q, message, kind), Add(q, message, kind).lastId).toasts == q.toasts
  {
    var a := Add(q, message, kind);
    assert a.toasts[..|a.toasts| - 1] == q.toasts;
    WithoutAbsent(q.toasts, a.lastId);
  }
}
