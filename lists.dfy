/**
 * Array operations the pages and the editor perform on copies of their state:
 * `xs.filter((_, i) => i !== index)` and `xs.filter(t => t.trim())`.
 */
module Lists {
  import opened Text

  /** `xs.filter((_, i) => i !== index)`: drops the element at `index`, if there is one. */
  function RemoveAt<T>(xs: seq<T>, index: int): (r: seq<T>)
    ensures 0 <= index < |xs| ==> |r| == |xs| - 1
    ensures 0 <= index < |xs| ==> forall j :: 0 <= j < |r| ==> r[j] == (if j < index then xs[j] else xs[j + 1])
    ensures !(0 <= index < |xs|) ==> r == xs
  {
    if 0 <= index < |xs| then xs[..index] + xs[index + 1..] else xs
  }

  /** `xs.filter(t => t.trim())`: the entries that are not blank, in their original order. */
  function NonBlank(xs: seq<string>): (r: seq<string>)
    ensures |r| <= |xs|
    ensures forall j :: 0 <= j < |r| ==> !IsBlank(r[j])
  {
    if xs == [] then []
    else if IsBlank(xs[0]) then NonBlank(xs[1..])
    else [xs[0]] + NonBlank(xs[1..])
  }

  /**
   * The filter keeps order: filtering two runs one after the other is filtering each. With the
   * one-entry case (`NonBlank([x])` is `[]` for a blank `x` and `[x]` otherwise) this pins the result.
   */
  lemma {:induction false} NonBlankConcat(a: seq<string>, b: seq<string>)
    ensures NonBlank(a + b) == NonBlank(a) + NonBlank(b)
    ensures forall x :: NonBlank([x]) == if IsBlank(x) then [] else [x]
  {
    if a == [] {
      assert a + b == b;
    } else {
      assert (a + b)[0] == a[0];
      assert (a + b)[1..] == a[1..] + b;
      NonBlankConcat(a[1..], b);
    }
  }

  /** Every kept entry comes from the input, and every non-blank input entry is kept. */
  lemma {:induction false} NonBlankMembers(xs: seq<string>)
    ensures forall t :: t in NonBlank(xs) <==> t in xs && !IsBlank(t)
  {
    if xs != [] {
      NonBlankMembers(xs[1..]);
      assert xs == [xs[0]] + xs[1..];
    }
  }

  /** Some entry survives the filter exactly when some entry is not blank (JavaScript's `xs.some(t => t.trim())`). */
  lemma {:induction false} NonBlankEmptyIff(xs: seq<string>)
    ensures NonBlank(xs) == [] <==> forall j :: 0 <= j < |xs| ==> IsBlank(xs[j])
  {
    if xs != [] {
      NonBlankEmptyIff(xs[1..]);
      if !IsBlank(xs[0]) {
        assert NonBlank(xs)[0] == xs[0];
      } else {
        forall j | 1 <= j < |xs| ensures xs[j] == xs[1..][j - 1] { }
      }
    }
  }

  /** The first kept entry is the first non-blank entry: all entries before it are blank. */
  lemma {:induction false} NonBlankHead(xs: seq<string>)
    requires NonBlank(xs) != []
    ensures exists k :: 0 <= k < |xs| && xs[k] == NonBlank(xs)[0] && forall j :: 0 <= j < k ==> IsBlank(xs[j])
  {
    if IsBlank(xs[0]) {
      NonBlankHead(xs[1..]);
      var k :| 0 <= k < |xs[1..]| && xs[1..][k] == NonBlank(xs[1..])[0] && forall j :: 0 <= j < k ==> IsBlank(xs[1..][j]);
      assert xs[k + 1] == NonBlank(xs)[0];
      forall j | 0 <= j < k + 1 ensures IsBlank(xs[j]) {
        if j > 0 { assert xs[j] == xs[1..][j - 1]; }
      }
    } else {
      assert xs[0] == NonBlank(xs)[0];
    }
  }

  /** Filtering twice is filtering once. */
  lemma {:induction false} NonBlankIdempotent(xs: seq<string>)
    ensures NonBlank(NonBlank(xs)) == NonBlank(xs)
  {
    if xs != [] {
      NonBlankIdempotent(xs[1..]);
      if !IsBlank(xs[0]) {
        var r := NonBlank(xs);
        assert r[1..] == NonBlank(xs[1..]);
      }
    }
  }

  /** A list with no blank entry is kept whole by the filter. */
  lemma {:induction false} NonBlankOfNonBlank(xs: seq<string>)
    requires forall j :: 0 <= j < |xs| ==> !IsBlank(xs[j])
    ensures NonBlank(xs) == xs
  {
    if xs != [] {
      NonBlankOfNonBlank(xs[1..]);
      assert [xs[0]] + xs[1..] == xs;
    }
  }

  /** `xs.map(t => t.trim())`. */
  function TrimAll(xs: seq<string>): (r: seq<string>)
    ensures |r| == |xs|
    ensures forall j :: 0 <= j < |r| ==> r[j] == Trim(xs[j])
  {
    seq(|xs|, j requires 0 <= j < |xs| => Trim(xs[j]))
  }
}
