/** The notification buffer behind `useToast`: a newest-first list holding at
    most three toasts; each toast is removed by id when its timer fires (the
    timer itself is the `Dismiss` call). */
module Toasts {
  import opened Common

  datatype Variant = Default | Destructive

  /** What a caller passes to `toast(...)`; a `None` variant or description was not supplied. */
  datatype ToastInput = ToastInput(title: string, description: Option<string>, variant: Option<Variant>)

  datatype Toast = Toast(id: string, title: string, description: Option<string>, variant: Variant)

  /** At most this many toasts are shown. */
  const MaxToasts: nat := 3

  /** `{ id, variant: "default", ...input }`: the input's fields over a default variant. */
  function MakeToast(input: ToastInput, id: string): (t: Toast)
    ensures t.id == id && t.title == input.title && t.description == input.description
    ensures input.variant.None? ==> t.variant == Default
    ensures input.variant.Some? ==> t.variant == input.variant.value
  {
    Toast(id, input.title, input.description, input.variant.GetOr(Default))
  }

  /** `[t, ...prev].slice(0, 3)`: the new toast first, then the newest of the previous ones,
      in their order, dropping the oldest beyond three. */
  function Pushed(prev: seq<Toast>, t: Toast): (r: seq<Toast>)
    ensures |r| == if |prev| < MaxToasts then |prev| + 1 else MaxToasts
    ensures r[0] == t
    ensures r[1..] == prev[..|r| - 1]
  {
    var all := [t] + prev;
    all[..if |all| < MaxToasts then |all| else MaxToasts]
  }

  /** `prev.filter((x) => x.id !== id)`. */
  function Dismissed(prev: seq<Toast>, id: string): (r: seq<Toast>)
    ensures forall x :: x in r <==> x in prev && x.id != id
  {
    Filter(prev, (x: Toast) => x.id != id)
  }

  /** Dismissal keeps the remaining toasts in their order. */
  lemma DismissKeepsOrder(prev: seq<Toast>, id: string)
    ensures Subsequence(Dismissed(prev, id), prev)
  {
    FilterIsSubsequence(prev, (x: Toast) => x.id != id);
  }

  /** Dismissing an id that is not shown (for instance one already pushed out) changes nothing. */
  lemma DismissAbsentId(prev: seq<Toast>, id: string)
    requires forall i :: 0 <= i < |prev| ==> prev[i].id != id
    ensures Dismissed(prev, id) == prev
  {
    FilterKeepsAll(prev, (x: Toast) => x.id != id);
  }

  /** The timer of a freshly pushed toast removes that toast and nothing else. */
  lemma DismissOwnToast(prev: seq<Toast>, t: Toast)
    requires forall i :: 0 <= i < |prev| ==> prev[i].id != t.id
    ensures Dismissed(Pushed(prev, t), t.id) == Pushed(prev, t)[1..]
  {
    var p := (x: Toast) => x.id != t.id;
    var r := Pushed(prev, t);
    assert r == [t] + r[1..];
    FilterAppend([t], r[1..], p);
    FilterKeepsAll(r[1..], p);
  }

  /** The toasts on screen. */
  class ToastStore {
    var toasts: seq<Toast>

    ghost predicate Valid()
      reads this
    {
      |toasts| <= MaxToasts
    }

    constructor ()
      ensures Valid() && toasts == []
    {
      toasts := [];
    }

    /** `toast(input)` with the generated id `id`. */
    method Push(input: ToastInput, id: string)
      requires Valid()
      modifies this
      ensures Valid()
      ensures toasts == Pushed(old(toasts), MakeToast(input, id))
    {
      toasts := Pushed(toasts, MakeToast(input, id));
    }

    /** The 3500 ms timer of the toast with id `id` firing. */
    method Dismiss(id: string)
      requires Valid()
      modifies this
      ensures Valid()
      ensures toasts == Dismissed(old(toasts), id)
    {
      toasts := Dismissed(toasts, id);
    }
  }
}
