/**
 * The page scanner of content.js: the per-page set of dispatched image URLs, the live enabled
 * flag, the filter every image passes through (`processImage`), and the loops that feed it
 * (the page-load scan, the mutation observers' callbacks and the status toggle).
 * The DOM is given as sequences of image records; `chrome.runtime.sendMessage` appends the
 * message to an outbox.
 */
module Scanner {
  import opened Wrappers
  import opened Text

  const MinSide: nat := 100
  const ExcludedMarker := "profile_images"

  /** An `<img>` element as the scanner reads it. */
  datatype ImageElement = ImageElement(
    src: string,
    width: nat,                                // rendered size
    height: nat,
    naturalWidth: nat,                         // intrinsic size, 0 while unknown
    naturalHeight: nat,
    alt: string)

  datatype Metadata = Metadata(width: nat, height: nat, alt: string, pageUrl: string)

  /** The `IMAGE_FOUND` message sent to the background worker. */
  datatype ImageFound = ImageFound(imageUrl: string, metadata: Metadata)

  /** A node of a mutation record's `addedNodes`. */
  datatype AddedNode =
    | ImgNode(img: ImageElement)               // an <img> itself (it has no <img> descendants)
    | ElementNode(images: seq<ImageElement>)   // another element, with its <img> descendants
    | OtherNode                                // text or comment: no querySelectorAll

  /** One mutation record: its added nodes, in order. */
  type Mutation = seq<AddedNode>

  // ---------------------------------------------------------------------------
  // The filter and the message
  // ---------------------------------------------------------------------------

  /** The checks of `processImage` that do not depend on the set of dispatched URLs. */
  predicate PassesStaticFilter(img: ImageElement)
  {
    img.src != "" && !Contains(img.src, ExcludedMarker) && img.width >= MinSide && img.height >= MinSide
  }

  /** `processImage` dispatches `img` when `seen` is the set of URLs already dispatched. */
  predicate Qualifies(seen: set<string>, img: ImageElement)
  {
    img.src !in seen && PassesStaticFilter(img)
  }

  /** `naturalWidth || width`, `naturalHeight || height`, `alt || ''` and the page's URL. */
  function MetadataOf(img: ImageElement, pageUrl: string): (m: Metadata)
    ensures img.naturalWidth != 0 ==> m.width == img.naturalWidth
    ensures img.naturalWidth == 0 ==> m.width == img.width
    ensures img.naturalHeight != 0 ==> m.height == img.naturalHeight
    ensures img.naturalHeight == 0 ==> m.height == img.height
    ensures PassesStaticFilter(img) ==> m.width > 0 && m.height > 0
    ensures m.alt == img.alt && m.pageUrl == pageUrl
  {
    Metadata(
      if img.naturalWidth != 0 then img.naturalWidth else img.width,
      if img.naturalHeight != 0 then img.naturalHeight else img.height,
      if img.alt != "" then img.alt else "",
      pageUrl)
  }

  function MessageFor(img: ImageElement, pageUrl: string): ImageFound
  {
    ImageFound(img.src, MetadataOf(img, pageUrl))
  }

  function Messages(imgs: seq<ImageElement>, pageUrl: string): (r: seq<ImageFound>)
    ensures |r| == |imgs|
    ensures forall i :: 0 <= i < |imgs| ==>
              r[i].imageUrl == imgs[i].src && r[i].metadata == MetadataOf(imgs[i], pageUrl)
  {
    seq(|imgs|, i requires 0 <= i < |imgs| => MessageFor(imgs[i], pageUrl))
  }

  function Srcs(imgs: seq<ImageElement>): set<string>
  {
    set i | 0 <= i < |imgs| :: imgs[i].src
  }

  predicate DistinctSrcs(imgs: seq<ImageElement>)
  {
    forall i, j :: 0 <= i < j < |imgs| ==> imgs[i].src != imgs[j].src
  }

  // ---------------------------------------------------------------------------
  // What feeding a list of images to processImage does, one image after the other
  // ---------------------------------------------------------------------------

  /** The set of dispatched URLs after `imgs` were processed in order, starting from `seen`. */
  function SeenAfter(seen: set<string>, imgs: seq<ImageElement>): set<string>
  {
    if |imgs| == 0 then seen
    else
      var before := SeenAfter(seen, imgs[..|imgs| - 1]);
      var last := imgs[|imgs| - 1];
      if Qualifies(before, last) then before + {last.src} else before
  }

  /** The images dispatched, in order, when `imgs` are processed in order starting from `seen`. */
  function Emitted(seen: set<string>, imgs: seq<ImageElement>): seq<ImageElement>
  {
    if |imgs| == 0 then []
    else
      var before := SeenAfter(seen, imgs[..|imgs| - 1]);
      var last := imgs[|imgs| - 1];
      Emitted(seen, imgs[..|imgs| - 1]) + if Qualifies(before, last) then [last] else []
  }

  /** The set grows by exactly the URLs of the images dispatched. */
  lemma {:induction false} SeenAfterIsSeenPlusEmitted(seen: set<string>, imgs: seq<ImageElement>)
    ensures SeenAfter(seen, imgs) == seen + Srcs(Emitted(seen, imgs))
  {
    if |imgs| > 0 {
      var init := imgs[..|imgs| - 1];
      SeenAfterIsSeenPlusEmitted(seen, init);
      var e := Emitted(seen, init);
      var last := imgs[|imgs| - 1];
      if Qualifies(SeenAfter(seen, init), last) {
        assert Srcs(e + [last]) == Srcs(e) + {last.src} by {
          var s := e + [last];
          assert forall i :: 0 <= i < |e| ==> s[i] == e[i];
          assert s[|e|] == last;
        }
      } else {
        assert e + [] == e;
      }
    }
  }

  /**
   * Nothing is dispatched twice and nothing already seen is dispatched; every dispatched image
   * has a non-empty URL without `profile_images` and is at least 100 by 100.
   */
  lemma {:induction false} EmittedFresh(seen: set<string>, imgs: seq<ImageElement>)
    ensures DistinctSrcs(Emitted(seen, imgs))
    ensures forall i :: 0 <= i < |Emitted(seen, imgs)| ==>
              Emitted(seen, imgs)[i].src !in seen && PassesStaticFilter(Emitted(seen, imgs)[i])
  {
    if |imgs| > 0 {
      var init := imgs[..|imgs| - 1];
      EmittedFresh(seen, init);
      SeenAfterIsSeenPlusEmitted(seen, init);
      var e := Emitted(seen, init);
      var last := imgs[|imgs| - 1];
      if Qualifies(SeenAfter(seen, init), last) {
        var s := e + [last];
        assert forall i :: 0 <= i < |e| ==> s[i] == e[i] && e[i].src in Srcs(e);
      } else {
        assert e + [] == e;
      }
    }
  }

  /** Every image that passes the size and URL checks ends up among the seen URLs: none is skipped. */
  lemma {:induction false} NothingQualifyingMissed(seen: set<string>, imgs: seq<ImageElement>, k: nat)
    requires k < |imgs| && PassesStaticFilter(imgs[k])
    ensures imgs[k].src in SeenAfter(seen, imgs)
  {
    var init := imgs[..|imgs| - 1];
    SeenGrows(seen, init);
    if k < |imgs| - 1 {
      NothingQualifyingMissed(seen, init, k);
    }
  }

  /** The set of seen URLs only grows. */
  lemma SeenGrows(seen: set<string>, imgs: seq<ImageElement>)
    ensures seen <= SeenAfter(seen, imgs)
  {
    SeenAfterIsSeenPlusEmitted(seen, imgs);
  }

  /** Processing `a` then `b` is processing `a + b`. */
  lemma {:induction false} ProcessAppend(seen: set<string>, a: seq<ImageElement>, b: seq<ImageElement>)
    ensures SeenAfter(seen, a + b) == SeenAfter(SeenAfter(seen, a), b)
    ensures Emitted(seen, a + b) == Emitted(seen, a) + Emitted(SeenAfter(seen, a), b)
  {
    if |b| == 0 {
      assert a + b == a;
    } else {
      var binit := b[..|b| - 1];
      ProcessAppend(seen, a, binit);
      assert (a + b)[..|a + b| - 1] == a + binit;
      assert (a + b)[|a + b| - 1] == b[|b| - 1];
    }
  }

  /**
   * Once every URL `imgs` would add is already seen, processing `imgs` again dispatches nothing
   * and adds nothing: a re-scan or a second observer never re-sends an image.
   */
  lemma {:induction false} RescanEmitsNothing(seen: set<string>, t: set<string>, imgs: seq<ImageElement>)
    requires SeenAfter(seen, imgs) <= t
    ensures Emitted(t, imgs) == []
    ensures SeenAfter(t, imgs) == t
  {
    if |imgs| > 0 {
      var init := imgs[..|imgs| - 1];
      var last := imgs[|imgs| - 1];
      assert SeenAfter(seen, init) <= SeenAfter(seen, imgs);
      RescanEmitsNothing(seen, t, init);
      assert !Qualifies(t, last);
    }
  }

  /** Processing the same images twice in a row is processing them once. */
  lemma ProcessTwice(seen: set<string>, imgs: seq<ImageElement>)
    ensures SeenAfter(seen, imgs + imgs) == SeenAfter(seen, imgs)
    ensures Emitted(seen, imgs + imgs) == Emitted(seen, imgs)
  {
    ProcessAppend(seen, imgs, imgs);
    RescanEmitsNothing(seen, SeenAfter(seen, imgs), imgs);
    assert Emitted(seen, imgs) + [] == Emitted(seen, imgs);
  }

  // ---------------------------------------------------------------------------
  // The images a mutation batch hands to processImage, in callback order
  // ---------------------------------------------------------------------------

  function NodeImages(n: AddedNode): seq<ImageElement>
  {
    match n
    case ImgNode(img) => [img]
    case ElementNode(images) => images
    case OtherNode => []
  }

  function MutationImages(m: Mutation): seq<ImageElement>
  {
    if |m| == 0 then [] else MutationImages(m[..|m| - 1]) + NodeImages(m[|m| - 1])
  }

  function BatchImages(batch: seq<Mutation>): seq<ImageElement>
  {
    if |batch| == 0 then [] else BatchImages(batch[..|batch| - 1]) + MutationImages(batch[|batch| - 1])
  }

  /**
   * Starting from seen set `p0` and sent images `s0`, the images `imgs` went through
   * processImage in order and left `p` and `s` (when disabled, nothing happened).
   */
  ghost predicate FedFrom(enabled: bool, p0: set<string>, s0: seq<ImageElement>, imgs: seq<ImageElement>,
                          p: set<string>, s: seq<ImageElement>)
  {
    && p == (if enabled then SeenAfter(p0, imgs) else p0)
    && s == s0 + (if enabled then Emitted(p0, imgs) else [])
  }

  /** Feeding `a` and then `b` is feeding `a + b`. */
  lemma FedChain(enabled: bool, p0: set<string>, s0: seq<ImageElement>, a: seq<ImageElement>,
                 p1: set<string>, s1: seq<ImageElement>, b: seq<ImageElement>,
                 p2: set<string>, s2: seq<ImageElement>)
    requires FedFrom(enabled, p0, s0, a, p1, s1)
    requires FedFrom(enabled, p1, s1, b, p2, s2)
    ensures FedFrom(enabled, p0, s0, a + b, p2, s2)
  {
    ProcessAppend(p0, a, b);
    if enabled {
      assert s2 == s0 + Emitted(p0, a) + Emitted(p1, b);
    }
  }

  // ---------------------------------------------------------------------------
  // The content script's state
  // ---------------------------------------------------------------------------

  /** The content script of one page: its module-level state, and the messages it sent. */
  class PageScanner {
    const pageUrl: string
    var processed: set<string>                 // processedImages
    var enabled: bool                          // isEnabled
    var observers: nat                         // MutationObservers installed on the body
    var toggleListeners: nat                   // TOGGLE_STATUS listeners registered by init()
    var outbox: seq<ImageFound>                // IMAGE_FOUND messages sent, in order
    ghost var sources: seq<ImageElement>       // the elements those messages were built from

    /** The set holds exactly the dispatched URLs, each dispatched once and from a qualifying image. */
    ghost predicate Valid()
      reads this
    {
      && processed == Srcs(sources)
      && DistinctSrcs(sources)
      && (forall i :: 0 <= i < |sources| ==> PassesStaticFilter(sources[i]))
      && outbox == Messages(sources, pageUrl)
    }

    /** Since `old` state: the images `imgs` went through processImage in order (or, disabled, nothing happened). */
    ghost predicate Fed(p0: set<string>, s0: seq<ImageElement>, imgs: seq<ImageElement>)
      reads this
    {
      FedFrom(enabled, p0, s0, imgs, processed, sources)
    }

    /** The script's state when it is loaded into a page. */
    constructor (pageUrl: string)
      ensures Valid()
      ensures this.pageUrl == pageUrl && processed == {} && enabled
      ensures observers == 0 && toggleListeners == 0 && outbox == []
    {
      this.pageUrl := pageUrl;
      processed := {};
      enabled := true;
      observers := 0;
      toggleListeners := 0;
      outbox := [];
      sources := [];
    }

    /**
     * `processImage`: when enabled and the image qualifies, add its URL to the set and then send
     * its `IMAGE_FOUND` message; otherwise change nothing.
     */
    method ProcessImage(img: ImageElement) returns (sent: bool)
      requires Valid()
      modifies this
      ensures Valid()
      ensures sent == (enabled && Qualifies(old(processed), img))
      ensures sent ==> img.src in processed && img.width >= MinSide && img.height >= MinSide
      ensures processed == if sent then old(processed) + {img.src} else old(processed)
      ensures outbox == old(outbox) + if sent then [MessageFor(img, pageUrl)] else []
      ensures Fed(old(processed), old(sources), [img])
      ensures enabled == old(enabled) && observers == old(observers) && toggleListeners == old(toggleListeners)
    {
      assert [img][..0] == [];
      if !enabled {
        return false;
      }
      if img.src in processed || img.src == "" || Contains(img.src, ExcludedMarker)
         || img.width < MinSide || img.height < MinSide {
        return false;
      }
      processed := processed + {img.src};
      sources := sources + [img];
      outbox := outbox + [MessageFor(img, pageUrl)];
      sent := true;
      assert Srcs(sources) == Srcs(old(sources)) + {img.src} by {
        assert forall i :: 0 <= i < |old(sources)| ==> sources[i] == old(sources)[i];
        assert sources[|old(sources)|] == img;
      }
      assert forall i :: 0 <= i < |old(sources)| ==> old(sources)[i].src in old(processed);
    }

    /** The `forEach` over a list of images calling processImage. */
    method ProcessAll(imgs: seq<ImageElement>)
      requires Valid()
      modifies this
      ensures Valid()
      ensures Fed(old(processed), old(sources), imgs)
      ensures enabled == old(enabled) && observers == old(observers) && toggleListeners == old(toggleListeners)
    {
      var i := 0;
      while i < |imgs|
        invariant 0 <= i <= |imgs|
        invariant Valid()
        invariant Fed(old(processed), old(sources), imgs[..i])
        invariant enabled == old(enabled) && observers == old(observers)
        invariant toggleListeners == old(toggleListeners)
      {
        var _ := ProcessImage(imgs[i]);
        assert imgs[..i + 1][..i] == imgs[..i];
        i := i + 1;
      }
      assert imgs[..i] == imgs;
    }

    /** `processExistingImages`: when enabled, process every image on the page in document order. */
    method ScanPage(page: seq<ImageElement>)
      requires Valid()
      modifies this
      ensures Valid()
      ensures Fed(old(processed), old(sources), page)
      ensures enabled == old(enabled) && observers == old(observers) && toggleListeners == old(toggleListeners)
    {
      if !enabled {
        return;
      }
      ProcessAll(page);
    }

    /** One added node: the node itself when it is an `<img>`, then its `<img>` descendants. */
    method ProcessNode(n: AddedNode)
      requires Valid()
      modifies this
      ensures Valid()
      ensures Fed(old(processed), old(sources), NodeImages(n))
      ensures enabled == old(enabled) && observers == old(observers) && toggleListeners == old(toggleListeners)
    {
      match n
      case ImgNode(img) =>
        var _ := ProcessImage(img);
      case ElementNode(images) =>
        ProcessAll(images);
      case OtherNode =>
    }

    /** The `for ... of mutation.addedNodes` loop. */
    method ProcessMutation(m: Mutation)
      requires Valid()
      modifies this
      ensures Valid()
      ensures Fed(old(processed), old(sources), MutationImages(m))
      ensures enabled == old(enabled) && observers == old(observers) && toggleListeners == old(toggleListeners)
    {
      var k := 0;
      while k < |m|
        invariant 0 <= k <= |m|
        invariant Valid()
        invariant Fed(old(processed), old(sources), MutationImages(m[..k]))
        invariant enabled == old(enabled) && observers == old(observers)
        invariant toggleListeners == old(toggleListeners)
      {
        ghost var p1, s1 := processed, sources;
        ProcessNode(m[k]);
        FedChain(enabled, old(processed), old(sources), MutationImages(m[..k]), p1, s1, NodeImages(m[k]),
                 processed, sources);
        assert m[..k + 1][..k] == m[..k];
        k := k + 1;
      }
      assert m[..k] == m;
    }

    /** One observer's callback on a batch of mutation records: nothing when disabled. */
    method ObserverCallback(batch: seq<Mutation>)
      requires Valid()
      modifies this
      ensures Valid()
      ensures Fed(old(processed), old(sources), BatchImages(batch))
      ensures enabled == old(enabled) && observers == old(observers) && toggleListeners == old(toggleListeners)
    {
      if !enabled {
        return;
      }
      var k := 0;
      while k < |batch|
        invariant 0 <= k <= |batch|
        invariant Valid()
        invariant Fed(old(processed), old(sources), BatchImages(batch[..k]))
        invariant enabled == old(enabled) && observers == old(observers)
        invariant toggleListeners == old(toggleListeners)
      {
        ghost var p1, s1 := processed, sources;
        ProcessMutation(batch[k]);
        FedChain(enabled, old(processed), old(sources), BatchImages(batch[..k]), p1, s1, MutationImages(batch[k]),
                 processed, sources);
        assert batch[..k + 1][..k] == batch[..k];
        k := k + 1;
      }
      assert batch[..k] == batch;
    }

    /**
     * A batch of mutations delivered to every installed observer in turn. However many observers
     * repeated calls of `setupImageObserver` installed, the batch's images are dispatched once.
     */
    method DeliverMutations(batch: seq<Mutation>)
      requires Valid()
      modifies this
      ensures Valid()
      ensures Fed(old(processed), old(sources), if observers > 0 then BatchImages(batch) else [])
      ensures enabled == old(enabled) && observers == old(observers) && toggleListeners == old(toggleListeners)
    {
      var imgs := BatchImages(batch);
      var k := 0;
      while k < observers
        invariant 0 <= k <= observers
        invariant Valid()
        invariant Fed(old(processed), old(sources), if k > 0 then imgs else [])
        invariant enabled == old(enabled) && observers == old(observers)
        invariant toggleListeners == old(toggleListeners)
      {
        ObserverCallback(batch);
        if k > 0 && enabled {
          RescanEmitsNothing(old(processed), SeenAfter(old(processed), imgs), imgs);
        }
        k := k + 1;
      }
    }

    /**
     * `init`: read the stored flag (missing reads as enabled), register a `TOGGLE_STATUS`
     * listener, and when enabled install an observer and scan the page.
     */
    method Init(storedEnabled: Option<bool>, page: seq<ImageElement>)
      requires Valid()
      modifies this
      ensures Valid()
      ensures enabled == (storedEnabled.None? || storedEnabled.value)
      ensures toggleListeners == old(toggleListeners) + 1
      ensures observers == old(observers) + if enabled then 1 else 0
      ensures Fed(old(processed), old(sources), page)
    {
      enabled := if storedEnabled.Some? then storedEnabled.value else true;
      toggleListeners := toggleListeners + 1;
      if enabled {
        observers := observers + 1;
        ScanPage(page);
      }
    }

    /**
     * A `TOGGLE_STATUS` message, handled by every registered listener in turn: each sets the flag
     * and, when enabled, installs one more observer and re-scans the page. The set is never
     * cleared, so a re-scan dispatches only images not seen before.
     */
    method Toggle(value: bool, page: seq<ImageElement>) returns (status: string)
      requires Valid()
      requires toggleListeners > 0
      modifies this
      ensures Valid()
      ensures status == "updated"
      ensures enabled == if toggleListeners > 0 then value else old(enabled)
      ensures observers == old(observers) + if value then toggleListeners else 0
      ensures toggleListeners == old(toggleListeners)
      ensures old(processed) <= processed
      ensures processed == if value && toggleListeners > 0 then SeenAfter(old(processed), page) else old(processed)
      ensures sources == old(sources) + if value && toggleListeners > 0 then Emitted(old(processed), page) else []
    {
      var k := 0;
      while k < toggleListeners
        invariant 0 <= k <= toggleListeners
        invariant Valid()
        invariant enabled == if k > 0 then value else old(enabled)
        invariant observers == old(observers) + if value then k else 0
        invariant toggleListeners == old(toggleListeners)
        invariant processed == if value && k > 0 then SeenAfter(old(processed), page) else old(processed)
        invariant sources == old(sources) + if value && k > 0 then Emitted(old(processed), page) else []
      {
        enabled := value;
        if enabled {
          observers := observers + 1;
          ScanPage(page);
          if k > 0 {
            RescanEmitsNothing(old(processed), SeenAfter(old(processed), page), page);
          }
        }
        k := k + 1;
      }
      SeenGrows(old(processed), page);
      status := "updated";
    }
  }

  /** What `Valid` promises of the messages sent: one per URL, every URL in the set, none small. */
  lemma OutboxOncePerUrl(sources: seq<ImageElement>, pageUrl: string, processed: set<string>)
    requires processed == Srcs(sources) && DistinctSrcs(sources)
    ensures forall i, j :: 0 <= i < j < |sources| ==>
              Messages(sources, pageUrl)[i].imageUrl != Messages(sources, pageUrl)[j].imageUrl
    ensures forall i :: 0 <= i < |sources| ==> Messages(sources, pageUrl)[i].imageUrl in processed
  {
  }
}
