/** The blog scene (`sector/blog/blog.js`): eight article panels laid out on
    a spiral that recedes into the screen, a camera that flies along it as the
    wheel turns, a progress bar, and a modal that shows the article under the
    pointer when it is clicked. Scrolling moves a target depth, clamped to the
    length of the corridor; every frame the camera eases towards it. */
module BlogScene {
  import opened Common

  /** An entry of the `articles` list. */
  datatype Article = Article(title: string, date: string, content: string)

  const Articles: seq<Article> := [
    Article("The Void", "2025.03", "Entering the digital void, where thoughts float like dust in a sunbeam..."),
    Article("Quantum Dreams", "2025.02", "Do androids dream of electric sheep? Or do they dream of quantum entanglement?"),
    Article("Silence", "2025.02", "In the silence of code, logic speaks loudest."),
    Article("Entropy", "2025.01", "Order from chaos. The eternal struggle of the developer."),
    Article("Light & Shadow", "2025.01", "Rendering reality, one pixel at a time."),
    Article("Echoes", "2024.12", "Old code echoes in the repository, a ghost of versions past."),
    Article("Singularity", "2024.11", "The point of no return. When the AI writes itself."),
    Article("Nebula", "2024.10", "Clouds of data forming new stars of innovation.")
  ]

  /** `articles.length`. */
  const ArticleCount: nat := 8

  /** The distance between two consecutive panels along the z axis. */
  const PanelSpacing: real := 400.0

  /** `maxZ` of `onWheel`: the corridor's length plus the camera's starting
      distance of 1000, so the camera can fly up to the last panel. */
  const MaxScroll: real := (ArticleCount - 1) as real * PanelSpacing + 1000.0

  /** `maxZ` of `animate`: the depth of the last panel, which the progress
      bar takes as its full length. */
  const ProgressSpan: real := (ArticleCount - 1) as real * PanelSpacing

  lemma ArticleTable()
    ensures |Articles| == ArticleCount
    ensures MaxScroll == 3800.0 && ProgressSpan == 2800.0
  {
  }

  // ---------------------------------------------------------------------------
  // The layout
  // ---------------------------------------------------------------------------

  /** The position of panel `index` in `createArticlePanel`: on the circle of
      radius 300 at angle `0.8 * index`, at depth `-400 * index`. */
  function PanelPosition(cos: real -> real, sin: real -> real, index: nat): Vec3
  {
    var angle := index as real * 0.8;
    Vec3(cos(angle) * 300.0, sin(angle) * 300.0, index as real * -400.0)
  }

  /** The panels recede: each lies 400 further from the camera than the one
      before it, and all of them lie within 300 of the camera's axis. */
  lemma PanelLayout(cos: real -> real, sin: real -> real, i: nat, j: nat)
    requires IsWave(cos) && IsWave(sin)
    ensures PanelPosition(cos, sin, i).z == -PanelSpacing * i as real
    ensures i < j ==> PanelPosition(cos, sin, j).z < PanelPosition(cos, sin, i).z
    ensures i < j ==> PanelPosition(cos, sin, i).z - PanelPosition(cos, sin, j).z == PanelSpacing * (j - i) as real
    ensures -300.0 <= PanelPosition(cos, sin, i).x <= 300.0
    ensures -300.0 <= PanelPosition(cos, sin, i).y <= 300.0
  {
    var angle := i as real * 0.8;
    assert -1.0 <= cos(angle) <= 1.0 && -1.0 <= sin(angle) <= 1.0;
  }

  // ---------------------------------------------------------------------------
  // Scrolling and the progress bar
  // ---------------------------------------------------------------------------

  /** `onWheel`: the target depth moves by twice the wheel's `deltaY`, in the
      opposite direction; it cannot go back past the start (0) nor beyond
      the end of the corridor (`-maxZ`). */
  function WheelTarget(target: real, deltaY: real): (r: real)
    ensures -MaxScroll <= r <= 0.0
  {
    var moved := target - deltaY * 2.0;
    var front := if moved > 0.0 then 0.0 else moved;
    if front < -MaxScroll then -MaxScroll else front
  }

  /** The clamp keeps the point of [-maxZ, 0] nearest to the unclamped
      target: a move that stays inside the corridor is taken in full, and
      one that leaves it stops at the end it crossed. */
  lemma WheelNearest(target: real, deltaY: real, z: real)
    requires -MaxScroll <= z <= 0.0
    ensures var moved := target - deltaY * 2.0;
            var r := WheelTarget(target, deltaY);
            && Max(r - moved, moved - r) <= Max(z - moved, moved - z)
            && (-MaxScroll <= moved <= 0.0 ==> r == moved)
  {
  }

  /** Turning the wheel down (positive `deltaY`) never brings the target
      back, and turning it up never pushes it further: from a target inside
      the corridor, the clamp only ever stops a move short. */
  lemma WheelDirection(target: real, deltaY: real)
    requires -MaxScroll <= target <= 0.0
    ensures 0.0 <= deltaY ==> WheelTarget(target, deltaY) <= target
    ensures deltaY <= 0.0 ==> target <= WheelTarget(target, deltaY)
    ensures deltaY == 0.0 ==> WheelTarget(target, deltaY) == target
  {
  }

  function Abs(x: real): real { if x < 0.0 then -x else x }

  /** The width of `#progress-fill`, in percent:
      `Math.min(Math.abs(scrollZ) / maxZ * 100, 100)`. */
  function ProgressWidth(scrollZ: real): (p: real)
    ensures 0.0 <= p <= 100.0
  {
    Min(Abs(scrollZ) / ProgressSpan * 100.0, 100.0)
  }

  /** Along the corridor, the bar grows in proportion to the distance
      flown, reaching 100 at the depth of the last panel (2800); the last
      1000 of the scroll range, up to 3800, all show a full bar. */
  lemma ProgressAlongCorridor(scrollZ: real)
    ensures -ProgressSpan <= scrollZ <= 0.0 ==> ProgressWidth(scrollZ) == -scrollZ / 28.0
    ensures -MaxScroll <= scrollZ <= -ProgressSpan ==> ProgressWidth(scrollZ) == 100.0
  {
    if -ProgressSpan <= scrollZ <= 0.0 {
      assert Abs(scrollZ) / ProgressSpan * 100.0 == -scrollZ / 28.0;
    } else if -MaxScroll <= scrollZ <= -ProgressSpan {
      assert Abs(scrollZ) / ProgressSpan * 100.0 >= 100.0;
    }
  }

  /** Flying deeper never shrinks the bar. */
  lemma ProgressMonotone(z1: real, z2: real)
    requires z2 <= z1 <= 0.0
    ensures ProgressWidth(z1) <= ProgressWidth(z2)
  {
    assert Abs(z1) / ProgressSpan <= Abs(z2) / ProgressSpan;
  }

  /** `0.95^n`. */
  function Decay(n: nat): (d: real)
    ensures 0.0 < d <= 1.0
  {
    if n == 0 then 1.0 else 0.95 * Decay(n - 1)
  }

  /** `scrollZ` after `n` frames with a fixed target. */
  function Settle(scrollZ: real, target: real, n: nat): real
  {
    if n == 0 then scrollZ else Approach(Settle(scrollZ, target, n - 1), target, 0.05)
  }

  /** A gap `g` after `n` frames that each close 5% of it. */
  function Shrink(g: real, n: nat): real
  {
    if n == 0 then g else 0.95 * Shrink(g, n - 1)
  }

  /** With the wheel at rest, the camera closes the gap to the target by 5%
      each frame: after `n` frames the gap is `0.95^n` of what it was. */
  lemma SettleGap(scrollZ: real, target: real, n: nat)
    ensures target - Settle(scrollZ, target, n) == Decay(n) * (target - scrollZ)
  {
    SettleShrinks(scrollZ, target, n);
    ShrinkIsDecay(target - scrollZ, n, target - Settle(scrollZ, target, n));
  }

  /** Meanwhile `scrollZ` never overshoots: it stays between its start and
      the target, so a scroll depth and target inside the corridor keep it
      inside the corridor. */
  lemma SettleBetween(scrollZ: real, target: real, n: nat)
    ensures Min(scrollZ, target) <= Settle(scrollZ, target, n) <= Max(scrollZ, target)
  {
    SettleShrinks(scrollZ, target, n);
    ShrinkBetween(target - scrollZ, n);
  }

  lemma {:induction false} SettleShrinks(scrollZ: real, target: real, n: nat)
    ensures target - Settle(scrollZ, target, n) == Shrink(target - scrollZ, n)
  {
    if n > 0 {
      SettleShrinks(scrollZ, target, n - 1);
    }
  }

  /** A gap `x` that is `g` shrunk over `n` frames is `0.95^n * g`. */
  lemma {:induction false} ShrinkIsDecay(g: real, n: nat, x: real)
    requires x == Shrink(g, n)
    ensures x == Decay(n) * g
  {
    if n > 0 {
      ShrinkIsDecay(g, n - 1, Shrink(g, n - 1));
      assert 0.95 * (Decay(n - 1) * g) == (0.95 * Decay(n - 1)) * g;
    }
  }

  /** The gap keeps its sign and never grows. */
  lemma {:induction false} ShrinkBetween(g: real, n: nat)
    ensures Min(0.0, g) <= Shrink(g, n) <= Max(0.0, g)
  {
    if n > 0 {
      ShrinkBetween(g, n - 1);
    }
  }

  // ---------------------------------------------------------------------------
  // The scene state
  // ---------------------------------------------------------------------------

  /** The module-level state of the scene that the handlers and the frame
      loop update: the scroll depth and its target, the camera position, the
      pointer, the hovered panel, the cursor, the progress bar and the
      modal. */
  class ScrollScene {
    var scrollZ: real
    var targetScrollZ: real
    var cameraX: real
    var cameraY: real
    var cameraZ: real
    /** `mouse`, in normalised device coordinates. */
    var mouseX: real
    var mouseY: real
    /** `hoveredMesh`, as the index of its panel. */
    var hovered: Option<nat>
    /** Whether the body's cursor is `pointer` (otherwise `default`). */
    var pointerCursor: bool
    var progressWidth: real
    /** Whether `#article-modal` carries the `active` class, and its texts. */
    var modalOpen: bool
    var modalTitle: string
    var modalMeta: string
    var modalBody: string

    /** The scroll depth and its target stay inside the corridor, the camera
        sits 1000 in front of the scroll depth, the cursor is a pointer
        exactly while a panel is hovered, and the bar is between 0 and 100. */
    ghost predicate Valid()
      reads this
    {
      && -MaxScroll <= targetScrollZ <= 0.0
      && -MaxScroll <= scrollZ <= 0.0
      && cameraZ == 1000.0 + scrollZ
      && (hovered.Some? ==> hovered.value < ArticleCount)
      && (pointerCursor <==> hovered.Some?)
      && 0.0 <= progressWidth <= 100.0
    }

    /** `init`: nothing scrolled, the camera at z = 1000 on the axis,
        nothing hovered and the modal closed. */
    constructor ()
      ensures Valid()
      ensures scrollZ == 0.0 && targetScrollZ == 0.0
      ensures cameraX == 0.0 && cameraY == 0.0 && cameraZ == 1000.0
      ensures mouseX == 0.0 && mouseY == 0.0 && progressWidth == 0.0
      ensures hovered == None && !pointerCursor
      ensures !modalOpen && modalTitle == "" && modalMeta == "" && modalBody == ""
    {
      scrollZ, targetScrollZ := 0.0, 0.0;
      cameraX, cameraY, cameraZ := 0.0, 0.0, 1000.0;
      mouseX, mouseY := 0.0, 0.0;
      hovered, pointerCursor := None, false;
      progressWidth := 0.0;
      modalOpen, modalTitle, modalMeta, modalBody := false, "", "", "";
    }

    /** `onWheel`: only the target depth moves. */
    method OnWheel(deltaY: real)
      requires Valid()
      modifies this
      ensures Valid()
      ensures targetScrollZ == WheelTarget(old(targetScrollZ), deltaY)
      ensures scrollZ == old(scrollZ) && hovered == old(hovered)
      ensures cameraX == old(cameraX) && cameraY == old(cameraY) && cameraZ == old(cameraZ)
      ensures mouseX == old(mouseX) && mouseY == old(mouseY)
      ensures pointerCursor == old(pointerCursor) && progressWidth == old(progressWidth)
      ensures modalOpen == old(modalOpen)
      ensures modalTitle == old(modalTitle) && modalMeta == old(modalMeta) && modalBody == old(modalBody)
    {
      targetScrollZ := targetScrollZ - deltaY * 2.0;
      if targetScrollZ > 0.0 {
        targetScrollZ := 0.0;
      }
      var maxZ := (ArticleCount - 1) as real * 400.0 + 1000.0;
      if targetScrollZ < -maxZ {
        targetScrollZ := -maxZ;
      }
    }

    /** `onMouseMove`: the pointer in normalised device coordinates. */
    method OnMouseMove(clientX: real, clientY: real, width: real, height: real)
      requires Valid() && 0.0 < width && 0.0 < height
      modifies this
      ensures Valid()
      ensures (mouseX, mouseY) == PointerNdc(clientX, clientY, width, height)
      ensures scrollZ == old(scrollZ) && targetScrollZ == old(targetScrollZ) && hovered == old(hovered)
      ensures cameraX == old(cameraX) && cameraY == old(cameraY) && cameraZ == old(cameraZ)
      ensures pointerCursor == old(pointerCursor) && progressWidth == old(progressWidth)
      ensures modalOpen == old(modalOpen)
      ensures modalTitle == old(modalTitle) && modalMeta == old(modalMeta) && modalBody == old(modalBody)
    {
      mouseX := (clientX / width) * 2.0 - 1.0;
      mouseY := -(clientY / height) * 2.0 + 1.0;
    }

    /** One frame of `animate`: the scroll depth closes 5% of its gap to the
        target and the camera follows it, 1000 in front; the camera's x and y
        drift 5% of the way towards `100 * mouse`; the panel the ray from the
        camera through the pointer hits first (`hit`, computed by the
        raycaster) becomes the hovered one, with the cursor to match; and the
        bar shows how far the camera has flown. */
    method Animate(hit: Option<nat>)
      requires Valid() && (hit.Some? ==> hit.value < ArticleCount)
      modifies this
      ensures Valid()
      ensures targetScrollZ == old(targetScrollZ)
      ensures targetScrollZ - scrollZ == 0.95 * (targetScrollZ - old(scrollZ))
      ensures Min(old(scrollZ), targetScrollZ) <= scrollZ <= Max(old(scrollZ), targetScrollZ)
      ensures cameraZ == 1000.0 + scrollZ && -2800.0 <= cameraZ <= 1000.0
      ensures mouseX * 100.0 - cameraX == 0.95 * (mouseX * 100.0 - old(cameraX))
      ensures mouseY * 100.0 - cameraY == 0.95 * (mouseY * 100.0 - old(cameraY))
      ensures mouseX == old(mouseX) && mouseY == old(mouseY)
      ensures hovered == hit && (pointerCursor <==> hit.Some?)
      ensures progressWidth == ProgressWidth(scrollZ)
      ensures modalOpen == old(modalOpen)
      ensures modalTitle == old(modalTitle) && modalMeta == old(modalMeta) && modalBody == old(modalBody)
    {
      scrollZ := scrollZ + (targetScrollZ - scrollZ) * 0.05;
      assert scrollZ == Approach(old(scrollZ), targetScrollZ, 0.05);
      cameraZ := 1000.0 + scrollZ;
      cameraX := cameraX + (mouseX * 100.0 - cameraX) * 0.05;
      cameraY := cameraY + (mouseY * 100.0 - cameraY) * 0.05;
      UpdateHover(hit);
      var maxZ := (ArticleCount - 1) as real * 400.0;
      progressWidth := Min(Abs(scrollZ) / maxZ * 100.0, 100.0);
    }

    /** The hover part of `animate`: a newly hit panel becomes the hovered
        one and turns the cursor into a pointer; no hit clears both. */
    method UpdateHover(hit: Option<nat>)
      requires (hovered.Some? <==> pointerCursor)
      requires hit.Some? ==> hit.value < ArticleCount
      modifies this
      ensures hovered == hit && (pointerCursor <==> hit.Some?)
      ensures scrollZ == old(scrollZ) && targetScrollZ == old(targetScrollZ)
      ensures cameraX == old(cameraX) && cameraY == old(cameraY) && cameraZ == old(cameraZ)
      ensures mouseX == old(mouseX) && mouseY == old(mouseY)
      ensures progressWidth == old(progressWidth) && modalOpen == old(modalOpen)
      ensures modalTitle == old(modalTitle) && modalMeta == old(modalMeta) && modalBody == old(modalBody)
    {
      if hit.Some? {
        if hovered != hit {
          hovered := hit;
          pointerCursor := true;
        }
      } else {
        if hovered.Some? {
          hovered := None;
          pointerCursor := false;
        }
      }
    }

    /** `onClick`: with a panel hovered, `showModal` fills the modal with
        that panel's article and opens it; otherwise nothing happens. */
    method OnClick()
      requires Valid()
      modifies this
      ensures Valid() && hovered == old(hovered)
      ensures old(hovered).Some? ==>
                var a := Articles[old(hovered).value];
                modalOpen && modalTitle == a.title && modalMeta == a.date && modalBody == a.content
      ensures old(hovered).None? ==>
                modalOpen == old(modalOpen) && modalTitle == old(modalTitle)
                && modalMeta == old(modalMeta) && modalBody == old(modalBody)
      ensures scrollZ == old(scrollZ) && targetScrollZ == old(targetScrollZ)
      ensures cameraX == old(cameraX) && cameraY == old(cameraY) && cameraZ == old(cameraZ)
      ensures mouseX == old(mouseX) && mouseY == old(mouseY)
      ensures pointerCursor == old(pointerCursor) && progressWidth == old(progressWidth)
    {
      if hovered.Some? {
        ArticleTable();
        var article := Articles[hovered.value];
        modalTitle := article.title;
        modalMeta := article.date;
        modalBody := article.content;
        modalOpen := true;
      }
    }

    /** The close button: the modal loses its `active` class and keeps its
        texts. */
    method CloseModal()
      requires Valid()
      modifies this
      ensures Valid() && !modalOpen
      ensures modalTitle == old(modalTitle) && modalMeta == old(modalMeta) && modalBody == old(modalBody)
      ensures hovered == old(hovered) && scrollZ == old(scrollZ) && targetScrollZ == old(targetScrollZ)
      ensures cameraX == old(cameraX) && cameraY == old(cameraY) && cameraZ == old(cameraZ)
      ensures mouseX == old(mouseX) && mouseY == old(mouseY)
      ensures pointerCursor == old(pointerCursor) && progressWidth == old(progressWidth)
    {
      modalOpen := false;
    }
  }
}
