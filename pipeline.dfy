/**
 * The whole path of one image, run sequentially: the page scanner's filter, the background
 * worker's `IMAGE_FOUND` handler, and the scanner's response callback that counts the image as
 * processed. Every asynchronous step completes before the next image is looked at.
 */
module Pipeline {
  import opened Wrappers
  import opened Text
  import opened Settings
  import opened Classifier
  import opened Background
  import opened Scanner

  /**
   * One image through the pipeline: when the scanner sends it, the background worker handles it
   * and, on the response, the processed counter rises by one, whatever the verdict.
   */
  method DispatchImage(scanner: PageScanner, store: Store, img: ImageElement, image: ImageFetch,
                       reply: ApiReply, timestamp: nat, hostSucceeded: bool)
    returns (response: Option<Response>)
    requires scanner.Valid()
    modifies scanner, store
    ensures scanner.Valid()
    ensures response.Some? <==> old(scanner.enabled) && Qualifies(old(scanner.processed), img)
    ensures scanner.processed == if response.Some? then old(scanner.processed) + {img.src} else old(scanner.processed)
    ensures scanner.outbox == old(scanner.outbox) + if response.Some? then [MessageFor(img, scanner.pageUrl)] else []
    ensures scanner.enabled == old(scanner.enabled) && scanner.observers == old(scanner.observers)
    ensures scanner.toggleListeners == old(scanner.toggleListeners)
    ensures store.imagesProcessed ==
              if response.Some? then Some(Count(old(store.imagesProcessed)) + 1) else old(store.imagesProcessed)
    ensures store.imagesDownloaded ==
              if response.Some? && Classify(old(store.settings), image, reply).IsGhibli() && hostSucceeded
              then Some(Count(old(store.imagesDownloaded)) + 1)
              else old(store.imagesDownloaded)
    ensures response.Some? ==> response.value.isGhibli == Classify(old(store.settings), image, reply).IsGhibli()
    ensures store.settings == old(store.settings) && store.enabled == old(store.enabled)
  {
    var sent := scanner.ProcessImage(img);
    if !sent {
      return None;
    }
    var r, _ := HandleImageFound(store, img.src, image, reply, timestamp, hostSucceeded);
    store.IncrementProcessed();
    response := Some(r);
  }

  /** A freshly installed extension with an API key set, on a page with no images scanned yet. */
  method Setup(apiKey: string) returns (scanner: PageScanner, store: Store)
    requires apiKey != ""
    ensures fresh(scanner) && fresh(store)
    ensures scanner.Valid() && scanner.enabled && scanner.processed == {} && scanner.outbox == []
    ensures store.imagesProcessed == Some(0) && store.imagesDownloaded == Some(0)
    ensures HasApiKey(store.settings)
    ensures EffectiveThreshold(store.settings.confidenceThreshold) == DefaultThreshold
  {
    store := new Store();
    store.Install();
    var _ := HandleUpdateSettings(store, Settings(Some(apiKey), None, None, None));
    scanner := new PageScanner("https://example.org/");
  }

  /**
   * A 200 by 200 image the service calls Ghibli, and whose download succeeds, raises both
   * counters by exactly one.
   */
  method ScenarioGhibliImage(url: string, apiKey: string, blobType: string, dataUrl: string)
    returns (processed: nat, downloaded: nat)
    requires url != "" && !Contains(url, ExcludedMarker) && apiKey != ""
    requires PrepareImage(Fetched(blobType, dataUrl)).Success?
    ensures processed == 1 && downloaded == 1
  {
    var scanner, store := Setup(apiKey);
    ReplyTrue(store.settings, Fetched(blobType, dataUrl));
    var img := ImageElement(url, 200, 200, 0, 0, "");
    var _ := DispatchImage(scanner, store, img, Fetched(blobType, dataUrl),
                           Responded(200, "", Parsed(Some("True"))), 1700000000000, true);
    processed, downloaded := Count(store.imagesProcessed), Count(store.imagesDownloaded);
  }

  /**
   * The same image judged not Ghibli: the downloader never runs, so only the processed counter
   * rises.
   */
  method ScenarioOtherImage(url: string, apiKey: string, blobType: string, dataUrl: string)
    returns (processed: nat, downloaded: nat)
    requires url != "" && !Contains(url, ExcludedMarker) && apiKey != ""
    requires PrepareImage(Fetched(blobType, dataUrl)).Success?
    ensures processed == 1 && downloaded == 0
  {
    var scanner, store := Setup(apiKey);
    ReplyFalse(store.settings, Fetched(blobType, dataUrl));
    var img := ImageElement(url, 200, 200, 0, 0, "");
    var _ := DispatchImage(scanner, store, img, Fetched(blobType, dataUrl),
                           Responded(200, "", Parsed(Some("false"))), 1700000000000, true);
    processed, downloaded := Count(store.imagesProcessed), Count(store.imagesDownloaded);
  }

  /** The same image seen a second time is suppressed: no second message, no counter change. */
  method ScenarioSameImageTwice(url: string, apiKey: string, blobType: string, dataUrl: string)
    returns (processed: nat, downloaded: nat, messages: nat)
    requires url != "" && !Contains(url, ExcludedMarker) && apiKey != ""
    requires PrepareImage(Fetched(blobType, dataUrl)).Success?
    ensures processed == 1 && downloaded == 1 && messages == 1
  {
    var scanner, store := Setup(apiKey);
    ReplyTrue(store.settings, Fetched(blobType, dataUrl));
    var img := ImageElement(url, 200, 200, 0, 0, "");
    var reply := Responded(200, "", Parsed(Some("True")));
    var _ := DispatchImage(scanner, store, img, Fetched(blobType, dataUrl), reply, 1700000000000, true);
    var second := DispatchImage(scanner, store, img, Fetched(blobType, dataUrl), reply, 1700000000001, true);
    assert second.None?;
    processed, downloaded := Count(store.imagesProcessed), Count(store.imagesDownloaded);
    messages := |scanner.outbox|;
  }
}
