/** The structure viewer controls on the landing page (src/routes/index.tsx):
    the representation and colour toggles, which step through three values
    each, and the representation label. */
module Viewer {
  import opened Wrappers
  import opened Strings

  datatype Representation = Cartoon | BallAndStick | Surface
  datatype ColorScheme = Chain | Element | Rainbow

  /** The string each representation is stored and sent to the viewer as. */
  function ReprName(r: Representation): string
  {
    match r
    case Cartoon => "cartoon"
    case BallAndStick => "ball-and-stick"
    case Surface => "surface"
  }

  function ColorName(c: ColorScheme): string
  {
    match c
    case Chain => "chain"
    case Element => "element"
    case Rainbow => "rainbow"
  }

  /** The nested conditional of the representation button. */
  function NextRepr(r: Representation): (n: Representation)
    ensures n != r
  {
    if r == Cartoon then BallAndStick else if r == BallAndStick then Surface else Cartoon
  }

  /** The nested conditional of the colour button. */
  function NextColor(c: ColorScheme): (n: ColorScheme)
    ensures n != c
  {
    if c == Chain then Element else if c == Element then Rainbow else Chain
  }

  function ReprAfter(start: Representation, presses: nat): Representation
  {
    if presses == 0 then start else NextRepr(ReprAfter(start, presses - 1))
  }

  function ColorAfter(start: ColorScheme, presses: nat): ColorScheme
  {
    if presses == 0 then start else NextColor(ColorAfter(start, presses - 1))
  }

  const ReprCycle: seq<Representation> := [Cartoon, BallAndStick, Surface]
  const ColorCycle: seq<ColorScheme> := [Chain, Element, Rainbow]

  /** Starting at "cartoon", the n-th press shows the n-th entry of
      cartoon, ball-and-stick, surface, counted modulo three. */
  lemma {:induction false} ReprCycleFromStart(presses: nat)
    ensures ReprAfter(Cartoon, presses) == ReprCycle[presses % 3]
  {
    if presses > 0 {
      ReprCycleFromStart(presses - 1);
    }
  }

  lemma {:induction false} ColorCycleFromStart(presses: nat)
    ensures ColorAfter(Chain, presses) == ColorCycle[presses % 3]
  {
    if presses > 0 {
      ColorCycleFromStart(presses - 1);
    }
  }

  /** Both toggles have period exactly three: three presses return to any
      starting value, one or two presses never do. */
  lemma PeriodThree(r: Representation, c: ColorScheme)
    ensures ReprAfter(r, 3) == r && ReprAfter(r, 1) != r && ReprAfter(r, 2) != r
    ensures ColorAfter(c, 3) == c && ColorAfter(c, 1) != c && ColorAfter(c, 2) != c
  {
  }

  /** `currentRepr.replace("-", " ")`: a string pattern replaces only its
      first occurrence. */
  function ReprLabel(r: Representation): string
  {
    ReplaceFirst(ReprName(r), "-", " ")
  }

  /** The colour button shows the scheme's name as it is. */
  function ColorLabel(c: ColorScheme): string
  {
    ColorName(c)
  }

  /** Each button's label tells its three states apart, so the label always
      identifies what the viewer was last told to show. */
  lemma LabelsTellStatesApart(r1: Representation, r2: Representation, c1: ColorScheme, c2: ColorScheme)
    ensures ReprLabel(r1) == ReprLabel(r2) ==> r1 == r2
    ensures ColorLabel(c1) == ColorLabel(c2) ==> c1 == c2
  {
    LabelOf(r1);
    LabelOf(r2);
  }

  /** The three representation labels. */
  lemma LabelOf(r: Representation)
    ensures ReprLabel(r) == (match r
      case Cartoon => "cartoon"
      case BallAndStick => "ball and-stick"
      case Surface => "surface")
  {
    if r == BallAndStick {
      BallAndStickLabel(ReprName(r));
    } else {
      PlainLabels(r);
    }
  }

  /** The ball-and-stick label keeps its second hyphen. */
  lemma BallAndStickLabel(name: string)
    requires name == ReprName(BallAndStick)
    ensures ReprLabel(BallAndStick) == "ball and-stick"
  {
    assert name[4] == '-' && "-" <= name[4..];
    assert forall j :: 0 <= j < 4 ==> name[j] != '-';
    assert IndexOf(name, "-") == FindFrom(name, "-", 0);
    assert FindFrom(name, "-", 0) == Some(4) by {
      assert FindFrom(name, "-", 3) == Some(4);
    }
  }

  /** The hyphen-free names are shown as they are. */
  lemma PlainLabels(r: Representation)
    requires r != BallAndStick
    ensures ReprLabel(r) == ReprName(r)
  {
    var name := ReprName(r);
    assert '-' !in name by {
      assert name == "cartoon" || name == "surface";
    }
    ContainsChar(name, '-');
    assert "-" == ['-'];
  }

  /** The landing page's toggle state and the calls it makes on the viewer. */
  class ViewerControls {
    var currentRepr: Representation
    var currentColor: ColorScheme
    /** Representations and colour schemes passed to the viewer, in order. */
    var reprCalls: seq<Representation>
    var colorCalls: seq<ColorScheme>
    /** How often each button has been pressed. */
    ghost var reprPresses: nat
    ghost var colorPresses: nat

    /** The state is fixed by the number of presses, counted modulo three. */
    ghost predicate Valid()
      reads this
    {
      currentRepr == ReprCycle[reprPresses % 3] && currentColor == ColorCycle[colorPresses % 3]
    }

    constructor()
      ensures currentRepr == Cartoon && currentColor == Chain
      ensures reprCalls == [] && colorCalls == []
      ensures reprPresses == 0 && colorPresses == 0
      ensures Valid()
    {
      currentRepr := Cartoon;
      currentColor := Chain;
      reprCalls := [];
      colorCalls := [];
      reprPresses := 0;
      colorPresses := 0;
    }

    /** The representation button; `viewerMounted` is whether the viewer ref is
        set (the optional call is skipped otherwise). When a call is made it
        carries exactly the value now held in state. */
    method ToggleRepresentation(viewerMounted: bool)
      requires Valid()
      modifies this
      ensures Valid()
      ensures currentRepr == NextRepr(old(currentRepr)) && reprPresses == old(reprPresses) + 1
      ensures reprCalls == if viewerMounted then old(reprCalls) + [currentRepr] else old(reprCalls)
      ensures currentColor == old(currentColor) && colorCalls == old(colorCalls)
      ensures colorPresses == old(colorPresses)
    {
      var next := if currentRepr == Cartoon then BallAndStick
                  else if currentRepr == BallAndStick then Surface
                  else Cartoon;
      currentRepr := next;
      reprPresses := reprPresses + 1;
      if viewerMounted {
        reprCalls := reprCalls + [next];
      }
    }

    /** The colour button, with the same shape as the representation button. */
    method ToggleColor(viewerMounted: bool)
      requires Valid()
      modifies this
      ensures Valid()
      ensures currentColor == NextColor(old(currentColor)) && colorPresses == old(colorPresses) + 1
      ensures colorCalls == if viewerMounted then old(colorCalls) + [currentColor] else old(colorCalls)
      ensures currentRepr == old(currentRepr) && reprCalls == old(reprCalls)
      ensures reprPresses == old(reprPresses)
    {
      var next := if currentColor == Chain then Element
                  else if currentColor == Element then Rainbow
                  else Chain;
      currentColor := next;
      colorPresses := colorPresses + 1;
      if viewerMounted {
        colorCalls := colorCalls + [next];
      }
    }
  }
}
