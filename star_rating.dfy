/**
 * The star rating widget (src/Star.js): `starsNumber` clickable stars, a
 * committed rating `rate`, a transient hover rating `hoverRate` and a
 * read-only switch.  The stars and the caption below them are pure
 * functions of the two counters.
 */
module Star {
  import opened Wrappers

  /**
   * The level the widget shows, `hoverRate || rate`: the hover level while
   * the pointer is over a star, otherwise the committed rating.
   */
  function ActiveLevel(rate: nat, hoverRate: nat): (active: nat)
    ensures active == hoverRate || active == rate
    ensures hoverRate != 0 ==> active == hoverRate
    ensures active == 0 <==> hoverRate == 0 && rate == 0
  {
    if hoverRate != 0 then hoverRate else rate
  }

  /** Star number `i` (counted from 1) is drawn full. */
  function IsFull(active: nat, i: nat): (full: bool)
    ensures full <==> i <= active
    ensures active == 0 && 1 <= i ==> !full
  {
    active >= i
  }

  /** The full/empty flags of the stars 1..starsNumber, in order. */
  function FullFlags(starsNumber: nat, active: nat): (flags: seq<bool>)
    ensures |flags| == starsNumber
    ensures forall i :: 0 <= i < starsNumber ==> (flags[i] <==> IsFull(active, i + 1))
    ensures forall i, j :: 0 <= i <= j < starsNumber && flags[j] ==> flags[i]
  {
    seq(starsNumber, i requires 0 <= i => IsFull(active, i + 1))
  }

  function CountFull(flags: seq<bool>): nat
  {
    if flags == [] then 0
    else CountFull(flags[..|flags| - 1]) + (if flags[|flags| - 1] then 1 else 0)
  }

  function Min(a: nat, b: nat): nat
  {
    if a <= b then a else b
  }

  /** Exactly min(active, starsNumber) stars are full. */
  lemma {:induction false} FullCount(starsNumber: nat, active: nat)
    ensures CountFull(FullFlags(starsNumber, active)) == Min(active, starsNumber)
  {
    if starsNumber > 0 {
      var flags := FullFlags(starsNumber, active);
      assert flags[..starsNumber - 1] == FullFlags(starsNumber - 1, active);
      FullCount(starsNumber - 1, active);
    } else {
      assert FullFlags(0, active) == [];
    }
  }

  /** What the caption under the stars shows. */
  datatype Caption = Message(text: string) | Level(level: nat) | NoCaption

  /**
   * `messages[active - 1] || hoverRate || rate || ""`: the configured
   * message for the active level when there is a non-empty one, otherwise
   * the active level itself when it is not zero, otherwise nothing.
   */
  function Label(messages: seq<string>, rate: nat, hoverRate: nat): (c: Caption)
    ensures var a := ActiveLevel(rate, hoverRate);
      (c.Message? <==> 1 <= a <= |messages| && messages[a - 1] != "")
      && (c.Message? ==> c.text == messages[a - 1])
      && (c.Level? ==> c.level == a && a != 0)
      && (c.NoCaption? <==> a == 0)
  {
    var a := ActiveLevel(rate, hoverRate);
    if 1 <= a <= |messages| && messages[a - 1] != "" then Message(messages[a - 1])
    else if hoverRate != 0 then Level(hoverRate)
    else if rate != 0 then Level(rate)
    else NoCaption
  }

  /** While a star is hovered, stars and caption depend on the hover only. */
  lemma HoverHidesRate(starsNumber: nat, messages: seq<string>, rate: nat, hoverRate: nat)
    requires hoverRate != 0
    ensures FullFlags(starsNumber, ActiveLevel(rate, hoverRate)) == FullFlags(starsNumber, hoverRate)
    ensures Label(messages, rate, hoverRate) == Label(messages, 0, hoverRate)
  {
  }

  class StarRating {
    const starsNumber: nat
    const messages: seq<string>
    const defaultRating: nat
    const readOnly: bool
    /** Whether an `onRate` callback was given. */
    const hasOnRate: bool
    var rate: nat
    var hoverRate: nat

    /**
     * A hover level always names one of the stars, and the committed
     * rating is either the seed or a star that was clicked.
     */
    ghost predicate Valid()
      reads this
    {
      hoverRate <= starsNumber
      && (rate == defaultRating || 1 <= rate <= starsNumber)
    }

    function Active(): nat
      reads this
    {
      ActiveLevel(rate, hoverRate)
    }

    constructor (starsNumber: nat := 5, messages: seq<string> := [], defaultRating: nat := 0,
                 readOnly: bool := false, hasOnRate: bool := false)
      ensures Valid()
      ensures this.starsNumber == starsNumber && this.messages == messages
      ensures this.defaultRating == defaultRating && this.readOnly == readOnly
      ensures this.hasOnRate == hasOnRate
      ensures rate == defaultRating && hoverRate == 0
      ensures Active() == defaultRating
    {
      this.starsNumber := starsNumber;
      this.messages := messages;
      this.defaultRating := defaultRating;
      this.readOnly := readOnly;
      this.hasOnRate := hasOnRate;
      rate := defaultRating;
      hoverRate := 0;
    }

    /**
     * A click on star `k`.  Returns the value handed to `onRate`, or None
     * when the callback is not called.
     */
    method Rate(k: nat) returns (reported: Option<nat>)
      requires Valid() && 1 <= k <= starsNumber
      modifies this
      ensures Valid()
      ensures hoverRate == old(hoverRate)
      ensures rate == if readOnly then old(rate) else k
      ensures reported == if !readOnly && hasOnRate then Some(k) else None
      ensures reported.Some? ==> 1 <= reported.value <= starsNumber && reported.value == rate
    {
      reported := None;
      if !readOnly {
        rate := k;
        if hasOnRate {
          reported := Some(k);
        }
      }
    }

    /** The pointer enters star `k`. */
    method HoverEnter(k: nat)
      requires Valid() && 1 <= k <= starsNumber
      modifies this
      ensures Valid()
      ensures rate == old(rate)
      ensures hoverRate == if readOnly then old(hoverRate) else k
      ensures !readOnly ==> Active() == k
    {
      if !readOnly {
        hoverRate := k;
      }
    }

    /** The pointer leaves a star. */
    method HoverLeave()
      requires Valid()
      modifies this
      ensures Valid()
      ensures rate == old(rate)
      ensures hoverRate == if readOnly then old(hoverRate) else 0
      ensures !readOnly ==> Active() == rate
    {
      if !readOnly {
        hoverRate := 0;
      }
    }
  }
}
