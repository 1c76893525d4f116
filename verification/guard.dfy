/** The repeat guard: the last text seen and how many times in a row it has
    been seen again. A stalled backend that keeps sending one token makes the
    counter climb until the guard trips. */
module RepeatGuard {

  /** Repeats tolerated; the guard trips once the counter exceeds this. */
  const Threshold: nat := 5

  datatype Guard = Guard(token: string, counter: nat)

  /** The state before the first line: an empty token seen zero times. */
  const Initial: Guard := Guard("", 0)

  /** Feeds one text to the guard: a repeat of the stored token bumps the
      counter, anything else becomes the new token with the counter reset. */
  function Observe(g: Guard, text: string): (g': Guard)
    ensures g'.token == text
    ensures g'.counter > 0 <==> text == g.token
    ensures text == g.token ==> g'.counter == g.counter + 1
  {
    if text == g.token then Guard(g.token, g.counter + 1) else Guard(text, 0)
  }

  predicate Tripped(g: Guard) {
    g.counter > Threshold
  }

  /** The guard after feeding `texts` in order to the initial state. */
  function Track(texts: seq<string>): Guard
    decreases |texts|
  {
    if texts == [] then Initial
    else Observe(Track(texts[..|texts| - 1]), texts[|texts| - 1])
  }

  /** Length of the maximal run of equal elements that ends at `j`. */
  function RunLength(xs: seq<string>, j: nat): (r: nat)
    requires j < |xs|
    ensures 1 <= r <= j + 1
    ensures forall k :: j - r < k <= j ==> xs[k] == xs[j]
    ensures r <= j ==> xs[j - r] != xs[j]
    decreases j
  {
    if j > 0 && xs[j - 1] == xs[j] then RunLength(xs, j - 1) + 1 else 1
  }

  /** The guard that a run-length count predicts at position `j` of `xs`. */
  function GuardAt(xs: seq<string>, j: nat): Guard
    requires j < |xs|
  {
    Guard(xs[j], RunLength(xs, j) - 1)
  }

  /** A run length only depends on the elements up to its end. */
  lemma RunLengthOfPrefix(xs: seq<string>, ys: seq<string>, j: nat)
    requires j < |xs| && j < |ys|
    requires xs[..j + 1] == ys[..j + 1]
    ensures RunLength(xs, j) == RunLength(ys, j)
  {
  }

  /** Observing the next element moves the predicted guard one step on. */
  lemma ObserveExtendsRun(xs: seq<string>, j: nat)
    requires 0 < j < |xs|
    ensures Observe(GuardAt(xs, j - 1), xs[j]) == GuardAt(xs, j)
  {
  }

  /** After any sequence of texts the counter equals the length of the final
      run minus one, where the initial empty token counts as a first element
      of the run. */
  lemma {:induction false} TrackCountsRun(texts: seq<string>)
    ensures Track(texts) == GuardAt([""] + texts, |texts|)
    decreases |texts|
  {
    if texts != [] {
      var n := |texts|;
      var init := texts[..n - 1];
      var xs := [""] + texts;
      TrackCountsRun(init);
      assert ([""] + init)[..n] == xs[..n];
      RunLengthOfPrefix([""] + init, xs, n - 1);
      ObserveExtendsRun(xs, n);
    }
  }

  /** Inside a run of `n` equal elements starting at `s`, where the element
      before `s` differs, the run length at `s + k` is `k + 1`. */
  lemma RunLengthInRun(xs: seq<string>, s: nat, n: nat)
    requires 0 < s < |xs| && s + n <= |xs|
    requires xs[s - 1] != xs[s]
    requires forall k :: s <= k < s + n ==> xs[k] == xs[s]
    ensures forall k :: s <= k < s + n ==> RunLength(xs, k) == k - s + 1
  {
  }

  /** The same when the run starts at the very beginning of `xs`. */
  lemma RunLengthFromStart(xs: seq<string>, n: nat)
    requires n <= |xs|
    requires forall k :: 0 <= k < n ==> xs[k] == xs[0]
    ensures forall k :: 0 <= k < n ==> RunLength(xs, k) == k + 1
  {
  }
}
