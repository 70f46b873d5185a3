/**
 * The background worker of background.js: the downloader, the `IMAGE_FOUND` handler that chains
 * classification and download, and the `UPDATE_SETTINGS` handler. Each host callback is taken
 * to complete before the next message is handled.
 */
module Background {
  import opened Wrappers
  import opened Text
  import opened Settings
  import opened Classifier

  const FilenameSuffix := "_ghibli_image.jpg"

  /** What `chrome.downloads.download` is asked to do. */
  datatype DownloadRequest = DownloadRequest(url: string, filename: string, saveAs: bool)

  /** The downloader's answer, or the handler's answer when it does not call the downloader. */
  datatype DownloadResult =
    | Started(filename: string)                // { success: true, filename }
    | NotGhibli                                // { success: false, reason: 'Not Ghibli style' }
  {
    /** `downloadResult.success`. */
    predicate Success()
    {
      Started?
    }
  }

  /** The `IMAGE_FOUND` response: `{ status: 'processed', isGhibli, downloadResult }`. */
  datatype Response = Processed(isGhibli: bool, downloadResult: DownloadResult)

  /** The directory images are saved to: `downloadPath || 'GhibliImages'`. */
  function DownloadDir(path: Option<string>): (d: string)
    ensures d != ""
    ensures Truthy(path) ==> d == path.value
    ensures !Truthy(path) ==> d == DefaultDownloadPath
  {
    OrDefault(path, DefaultDownloadPath)
  }

  /** `${downloadPath}/${Date.now()}_ghibli_image.jpg`. */
  function DownloadFilename(path: Option<string>, timestamp: nat): (f: string)
    ensures IsPrefix(DownloadDir(path) + "/", f)
    ensures |f| > |DownloadDir(path)| + 1 + |FilenameSuffix|
    ensures f[|f| - |FilenameSuffix|..] == FilenameSuffix
  {
    var f := DownloadDir(path) + "/" + NatToString(timestamp) + FilenameSuffix;
    assert f[|f| - |FilenameSuffix|..] == FilenameSuffix;
    f
  }

  /** The numeral between the directory's slash and the fixed suffix of a filename. */
  function TimestampField(path: Option<string>, f: string): string
    requires |f| >= |DownloadDir(path)| + 1 + |FilenameSuffix|
  {
    f[|DownloadDir(path)| + 1..|f| - |FilenameSuffix|]
  }

  /** The filename records its timestamp: reading the field back in decimal gives it. */
  lemma TimestampRecoverable(path: Option<string>, timestamp: nat)
    ensures var field := TimestampField(path, DownloadFilename(path, timestamp));
            field == NatToString(timestamp)
            && (forall i :: 0 <= i < |field| ==> IsDigit(field[i]))
            && DecimalValue(field) == timestamp
  {
    var dir := DownloadDir(path);
    var n := NatToString(timestamp);
    var f := DownloadFilename(path, timestamp);
    assert f == dir + "/" + n + FilenameSuffix;
    assert f[|dir| + 1..|f| - |FilenameSuffix|] == n;
    DecimalValueOfNatToString(timestamp);
  }

  /** Downloads at two different instants get two different filenames. */
  lemma DistinctTimestampsDistinctFilenames(path: Option<string>, t1: nat, t2: nat)
    requires t1 != t2
    ensures DownloadFilename(path, t1) != DownloadFilename(path, t2)
  {
    TimestampRecoverable(path, t1);
    TimestampRecoverable(path, t2);
  }

  /**
   * `downloadGhibliImage`: ask the host to save `imageUrl` under the timestamped filename and
   * answer success at once; once the host reports success, count the download.
   */
  method Download(store: Store, imageUrl: string, timestamp: nat, hostSucceeded: bool)
    returns (result: DownloadResult, request: DownloadRequest)
    modifies store
    ensures request == DownloadRequest(imageUrl, DownloadFilename(old(store.settings.downloadPath), timestamp), false)
    ensures result == Started(request.filename)
    ensures store.imagesDownloaded ==
              if hostSucceeded then Some(Count(old(store.imagesDownloaded)) + 1) else old(store.imagesDownloaded)
    ensures store.settings == old(store.settings) && store.enabled == old(store.enabled)
    ensures store.imagesProcessed == old(store.imagesProcessed)
  {
    var filename := DownloadFilename(store.settings.downloadPath, timestamp);
    request := DownloadRequest(imageUrl, filename, false);
    // the host's callback: count the download unless chrome.runtime.lastError is set
    if hostSucceeded {
      store.IncrementDownloaded();
    }
    result := Started(filename);
  }

  /**
   * The `IMAGE_FOUND` handler: classify, download only on a Ghibli verdict, and report the
   * download's success as `isGhibli`.
   */
  method HandleImageFound(store: Store, imageUrl: string, image: ImageFetch, reply: ApiReply,
                          timestamp: nat, hostSucceeded: bool)
    returns (response: Response, request: Option<DownloadRequest>)
    modifies store
    ensures var verdict := Classify(old(store.settings), image, reply);
            && response.isGhibli == response.downloadResult.Success() == verdict.IsGhibli()
            && (request.Some? <==> verdict.IsGhibli())
            && (verdict.IsGhibli() ==>
                  request == Some(DownloadRequest(imageUrl, DownloadFilename(old(store.settings.downloadPath), timestamp), false))
                  && response.downloadResult == Started(request.value.filename))
            && (!verdict.IsGhibli() ==> response.downloadResult == NotGhibli)
            && store.imagesDownloaded ==
                 if verdict.IsGhibli() && hostSucceeded then Some(Count(old(store.imagesDownloaded)) + 1)
                 else old(store.imagesDownloaded)
    ensures store.settings == old(store.settings) && store.enabled == old(store.enabled)
    ensures store.imagesProcessed == old(store.imagesProcessed)
  {
    var verdict := Classify(store.settings, image, reply);
    var result: DownloadResult;
    if verdict.IsGhibli() {
      var req;
      result, req := Download(store, imageUrl, timestamp, hostSucceeded);
      request := Some(req);
    } else {
      result := NotGhibli;
      request := None;
    }
    response := Processed(result.Success(), result);
  }

  /** The `UPDATE_SETTINGS` handler: store the keys the message carries and acknowledge. */
  method HandleUpdateSettings(store: Store, update: Settings) returns (status: string)
    modifies store
    ensures status == "settings_updated"
    ensures store.settings == Merge(old(store.settings), update)
    ensures store.enabled == old(store.enabled) && store.imagesProcessed == old(store.imagesProcessed)
    ensures store.imagesDownloaded == old(store.imagesDownloaded)
  {
    store.SetSettings(update);
    status := "settings_updated";
  }
}
