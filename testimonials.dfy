/** The testimonials carousel (src/components/TestimonialsSection.jsx): a
    cyclic index over a fixed list, moved by the arrows, the dots and the
    autoplay timer, which hovering pauses. */
module Testimonials {

  datatype Testimonial = Testimonial(id: nat, name: string, role: string, image: string)

  const Testimonials: seq<Testimonial> := [
    Testimonial(1, "Atharv Mule", "Volleyball Team Captain", "/A.jpg"),
    Testimonial(2, "Atharv Pandhrikar", "Chess Player", "/At.jpg"),
    Testimonial(3, "Prof. Niraj Dharmadhikari", "Ex Physical Director", "/Ni.jpg")
  ]

  /** `handleNext` and the autoplay step: one forward, wrapping to the first. */
  function NextIndex(i: nat, n: nat): (r: nat)
    requires n > 0
    ensures r < n
    ensures i + 1 < n ==> r == i + 1
    ensures i + 1 == n ==> r == 0
  {
    (i + 1) % n
  }

  /** `handlePrev`: one back, wrapping to the last. */
  function PrevIndex(i: nat, n: nat): (r: nat)
    requires i < n
    ensures r < n
    ensures i > 0 ==> r == i - 1
    ensures i == 0 ==> r == n - 1
  {
    if i == 0 then n - 1 else i - 1
  }

  lemma PrevUndoesNext(i: nat, n: nat)
    requires i < n
    ensures PrevIndex(NextIndex(i, n), n) == i
  {
  }

  lemma NextUndoesPrev(i: nat, n: nat)
    requires i < n
    ensures NextIndex(PrevIndex(i, n), n) == i
  {
  }

  /** The index after `k` forward steps. */
  function Advance(i: nat, n: nat, k: nat): (r: nat)
    requires i < n
    ensures r < n
  {
    if k == 0 then i else NextIndex(Advance(i, n, k - 1), n)
  }

  /** Short of the end, `k` steps move `k` places. */
  lemma {:induction false} AdvanceCounts(i: nat, n: nat, k: nat)
    requires i + k < n
    ensures Advance(i, n, k) == i + k
  {
    if k > 0 {
      AdvanceCounts(i, n, k - 1);
    }
  }

  lemma {:induction false} AdvanceAdds(i: nat, n: nat, a: nat, b: nat)
    requires i < n
    ensures Advance(i, n, a + b) == Advance(Advance(i, n, a), n, b)
  {
    if b > 0 {
      AdvanceAdds(i, n, a, b - 1);
    }
  }

  /** A full round of forward steps comes back to where it started. */
  lemma FullTurnReturns(i: nat, n: nat)
    requires i < n
    ensures Advance(i, n, n) == i
  {
    AdvanceCounts(i, n, n - 1 - i);
    assert Advance(i, n, n - i) == 0;
    AdvanceAdds(i, n, n - i, i);
    if i > 0 {
      AdvanceCounts(0, n, i);
    }
  }

  class Carousel {
    var currentIndex: nat
    var autoplay: bool

    ghost predicate Valid()
      reads this
    {
      currentIndex < |Testimonials|
    }

    constructor ()
      ensures Valid() && currentIndex == 0 && autoplay
    {
      currentIndex, autoplay := 0, true;
    }

    function Current(): (t: Testimonial)
      reads this
      requires Valid()
      ensures t in Testimonials
    {
      Testimonials[currentIndex]
    }

    method HandleNext()
      modifies this
      requires Valid()
      ensures Valid() && currentIndex == NextIndex(old(currentIndex), |Testimonials|)
      ensures unchanged(this`autoplay)
    {
      currentIndex := (currentIndex + 1) % |Testimonials|;
    }

    method HandlePrev()
      modifies this
      requires Valid()
      ensures Valid() && currentIndex == PrevIndex(old(currentIndex), |Testimonials|)
      ensures unchanged(this`autoplay)
    {
      currentIndex := if currentIndex == 0 then |Testimonials| - 1 else currentIndex - 1;
    }

    /** One tick of the five-second interval, which runs only while
        autoplay is on. */
    method AutoplayTick()
      modifies this
      requires Valid() && autoplay
      ensures Valid() && currentIndex == NextIndex(old(currentIndex), |Testimonials|)
      ensures unchanged(this`autoplay)
    {
      currentIndex := (currentIndex + 1) % |Testimonials|;
    }

    /** A click on the dot of testimonial `index`. */
    method SelectDot(index: nat)
      modifies this
      requires Valid() && index < |Testimonials|
      ensures Valid() && currentIndex == index
      ensures unchanged(this`autoplay)
    {
      currentIndex := index;
    }

    method MouseEnter()
      modifies this
      requires Valid()
      ensures Valid() && !autoplay
      ensures unchanged(this`currentIndex)
    {
      autoplay := false;
    }

    method MouseLeave()
      modifies this
      requires Valid()
      ensures Valid() && autoplay
      ensures unchanged(this`currentIndex)
    {
      autoplay := true;
    }
  }
}
