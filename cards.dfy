/**
 * The cat records of `resetApp` and the card elements `renderDeck` and
 * `makeCard` build from them.
 */
module Cards {
  import opened Geometry

  /** Number of cats in a deck (app.js:12). */
  const TOTAL_CATS: nat := 12

  /**
   * The image reference `catUrl(seed)`. Only its seed is kept: two
   * references are equal exactly when their seeds are.
   */
  datatype Url = CatUrl(seed: int)

  /** One cat of the deck: `{ id, url }`. */
  datatype Cat = Cat(id: nat, url: Url)

  /**
   * A card element: the `data-index` it was rendered with, and the number
   * of the deck rebuild that created it. Elements of an earlier rebuild are
   * never equal to elements of the current one.
   */
  datatype CardRef = CardRef(generation: nat, index: nat)

  /** What `makeCard` puts into a card element. */
  datatype CardView = CardView(index: nat, id: nat, url: Url, pose: Pose)

  /** The deck `resetApp` builds from the seed `baseSeed`. */
  function FreshCats(baseSeed: int): (cats: seq<Cat>)
    ensures IsFreshDeck(cats) && cats[0].url.seed == baseSeed
  {
    seq(TOTAL_CATS, i requires 0 <= i => Cat(i + 1, CatUrl(baseSeed + i)))
  }

  /** A deck as `resetApp` builds it, for some seed. */
  predicate IsFreshDeck(cats: seq<Cat>)
  {
    |cats| == TOTAL_CATS &&
    forall i :: 0 <= i < |cats| ==> cats[i] == Cat(i + 1, CatUrl(cats[0].url.seed + i))
  }

  /** `cats` holds a cat whose image is `u`. */
  predicate HasUrl(cats: seq<Cat>, u: Url)
  {
    exists i :: 0 <= i < |cats| && cats[i].url == u
  }

  /**
   * A fresh deck holds TOTAL_CATS cats with ids 1..TOTAL_CATS in order, and
   * no image reference occurs twice.
   */
  lemma FreshDeckShape(baseSeed: int)
    ensures IsFreshDeck(FreshCats(baseSeed))
    ensures forall i :: 0 <= i < TOTAL_CATS ==> FreshCats(baseSeed)[i].id == i + 1
    ensures forall i, j :: 0 <= i < j < TOTAL_CATS ==>
              FreshCats(baseSeed)[i].url != FreshCats(baseSeed)[j].url
  {
  }

  /** The card element `makeCard(cats[index], index)`. */
  function MakeCard(cats: seq<Cat>, index: nat): (v: CardView)
    requires index < |cats|
    ensures v.index == index && v.id == cats[index].id && v.url == cats[index].url
    ensures 0 <= v.pose.offsetY <= 10 && 0.94 <= v.pose.scale <= 1.0
    ensures index == |cats| - 1 ==> v.pose == Pose(0, 1.0)
  {
    CardView(index, cats[index].id, cats[index].url, RestingPose(|cats|, index))
  }

  /**
   * The children of the deck container after `renderDeck`: cards appended
   * from the last index down to index 0.
   */
  function RenderedCards(cats: seq<Cat>): (children: seq<CardView>)
    ensures |children| == |cats|
  {
    seq(|cats|, k requires 0 <= k < |cats| => MakeCard(cats, |cats| - 1 - k))
  }

  /** `renderDeck`: the descending loop over the deck. */
  method RenderDeck(cats: seq<Cat>) returns (children: seq<CardView>)
    ensures children == RenderedCards(cats)
  {
    children := [];
    var i := |cats| - 1;
    while i >= 0
      invariant -1 <= i < |cats|
      invariant |children| == |cats| - 1 - i
      invariant forall k :: 0 <= k < |children| ==> children[k] == MakeCard(cats, |cats| - 1 - k)
    {
      children := children + [MakeCard(cats, i)];
      i := i - 1;
    }
  }

  /** The indices 0..n-1. */
  function Indices(n: nat): (r: set<nat>)
    ensures forall i: nat :: i in r <==> i < n
  {
    if n == 0 then {} else Indices(n - 1) + {n - 1}
  }

  /** The `data-index` values of a list of card elements. */
  function IndicesOf(children: seq<CardView>): set<nat>
  {
    set v | v in children :: v.index
  }

  /**
   * `renderDeck` creates exactly one element for every index of the deck,
   * and the last element appended, the one painted over all others, is the
   * card at index 0.
   */
  lemma RenderedCardsIndices(cats: seq<Cat>)
    ensures IndicesOf(RenderedCards(cats)) == Indices(|cats|)
    ensures cats != [] ==> RenderedCards(cats)[|cats| - 1] == MakeCard(cats, 0)
  {
    var children := RenderedCards(cats);
    forall i: nat | i < |cats|
      ensures i in IndicesOf(children)
    {
      var k := |cats| - 1 - i;
      assert children[k] == MakeCard(cats, i);
    }
    forall v | v in children
      ensures v.index < |cats|
    {
      var k :| 0 <= k < |children| && children[k] == v;
      assert v == MakeCard(cats, |cats| - 1 - k);
    }
  }
}
