/** Option for lookups that may find nothing, and Outcome for operations that
    either finish or abort the program with a panic message. */
module Wrappers {

  datatype Option<+T> = None | Some(value: T)

  /** `Panic` stands for a Rust `panic!` or a failed `unwrap`/`expect`: the
      program stops, so nothing the operation did is observable afterwards. */
  datatype Outcome<+T> = Ok(value: T) | Panic(message: string)
}

/** Fixed-width integer types of the source. */
module Numeric {

  const U32_LIMIT: nat := 0x1_0000_0000

  newtype u8 = x: int | 0 <= x < 0x100
  newtype u16 = x: int | 0 <= x < 0x1_0000

  /** A product of two `f32` values, modelled over the reals. Matrix entries
      that are a computed factor times a scale go through this function. */
  function Scaled(v: real, factor: real): real { v * factor }

  /** Rust's `n as u32` on a `usize`: keeps the low 32 bits. */
  function AsU32(n: nat): (r: nat)
    ensures r < U32_LIMIT
    ensures n < U32_LIMIT ==> r == n
  {
    n % U32_LIMIT
  }
}

/** Substring occurrence, used to say that one piece of generated shader
    text appears inside another. */
module Text {

  ghost predicate OccursAt(sub: string, s: string, k: nat)
  {
    k + |sub| <= |s| && s[k..k + |sub|] == sub
  }

  ghost predicate Occurs(sub: string, s: string)
  {
    exists k: nat :: OccursAt(sub, s, k)
  }

  /** Text that occurs in `s` still occurs in any text holding `s` at
      offset `off`. */
  lemma OccursWithin(sub: string, s: string, whole: string, off: nat)
    requires Occurs(sub, s)
    requires off + |s| <= |whole| && whole[off..off + |s|] == s
    ensures Occurs(sub, whole)
  {
    var k: nat :| OccursAt(sub, s, k);
    var found, expected := whole[off + k..off + k + |sub|], s[k..k + |sub|];
    forall j | 0 <= j < |sub|
      ensures found[j] == expected[j]
    {
      assert whole[off + k + j] == whole[off..off + |s|][k + j];
    }
    assert found == expected;
    assert OccursAt(sub, whole, off + k);
  }

  /** Text that occurs in the middle piece occurs in the whole. */
  lemma OccursInMiddle(sub: string, pre: string, mid: string, post: string)
    requires Occurs(sub, mid)
    ensures Occurs(sub, pre + mid + post)
  {
    var whole := pre + mid + post;
    assert whole[|pre|..|pre| + |mid|] == mid;
    OccursWithin(sub, mid, whole, |pre|);
  }

  /** Text occurs wherever it is spliced in. */
  lemma OccursSpliced(sub: string, pre: string, post: string, whole: string)
    requires whole == pre + sub + post
    ensures Occurs(sub, whole)
  {
    assert whole[|pre|..|pre| + |sub|] == sub;
    assert OccursAt(sub, whole, |pre|);
  }

  /** Concatenation is associative. */
  lemma AppendAssociative<T>(a: seq<T>, b: seq<T>, c: seq<T>)
    ensures a + (b + c) == (a + b) + c
  {
  }

  /** The tail of a concatenation is its second part. */
  lemma EndsWith(a: string, b: string)
    ensures |a + b| >= |b| && (a + b)[|a + b| - |b|..] == b
  {
  }

  lemma OccursSelf(s: string)
    ensures Occurs(s, s)
  {
    assert OccursAt(s, s, 0);
  }
}
