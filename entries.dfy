/** Key/value entries as the cloud APIs return them, and their folding into a dictionary. */
module Entries {

  /** One `{'Key': k, 'Value': v}` tag, parameter, output or stack resource
      (logical id to physical id). */
  datatype Entry = Entry(key: string, value: string)

  /** The dictionary `d` left by `for e in es: d[e.key] = e.value` on an empty `d`. */
  function Collect(es: seq<Entry>): (r: map<string, string>)
  {
    if es == [] then map[]
    else Collect(es[..|es| - 1])[es[|es| - 1].key := es[|es| - 1].value]
  }

  /** The keys of the folded dictionary are exactly the entries' keys. */
  lemma {:induction false} CollectKeys(es: seq<Entry>, k: string)
    ensures k in Collect(es) <==> exists i :: 0 <= i < |es| && es[i].key == k
  {
    if es != [] {
      var init := es[..|es| - 1];
      CollectKeys(init, k);
      if k in Collect(es) && k != es[|es| - 1].key {
        var i :| 0 <= i < |init| && init[i].key == k;
        assert es[i].key == k;
      }
      if exists i :: 0 <= i < |es| && es[i].key == k {
        var i :| 0 <= i < |es| && es[i].key == k;
        if i < |es| - 1 {
          assert init[i].key == k;
        }
      }
    }
  }

  /** On a repeated key the value of the last occurrence is kept. */
  lemma {:induction false} CollectLastWins(es: seq<Entry>, i: nat)
    requires i < |es|
    requires forall j :: i < j < |es| ==> es[j].key != es[i].key
    ensures es[i].key in Collect(es) && Collect(es)[es[i].key] == es[i].value
  {
    if i < |es| - 1 {
      var init := es[..|es| - 1];
      assert init[i] == es[i];
      CollectLastWins(init, i);
    }
  }

  /** Folding two lists one after the other is the right-biased union of their folds. */
  lemma {:induction false} CollectAppend(a: seq<Entry>, b: seq<Entry>)
    ensures Collect(a + b) == Collect(a) + Collect(b)
  {
    if b == [] {
      assert a + b == a;
    } else {
      var b' := b[..|b| - 1];
      assert (a + b)[..|a + b| - 1] == a + b';
      CollectAppend(a, b');
    }
  }

  /** The loop `for e in es: d[e.key] = e.value` over an existing dictionary `d`. */
  method CollectInto(d: map<string, string>, es: seq<Entry>) returns (r: map<string, string>)
    ensures r == d + Collect(es)
  {
    r := d;
    for i := 0 to |es|
      invariant r == d + Collect(es[..i])
    {
      assert es[..i + 1][..i] == es[..i];
      r := r[es[i].key := es[i].value];
    }
    assert es[..|es|] == es;
  }
}
