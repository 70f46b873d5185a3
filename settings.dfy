/**
 * The extension's settings store (`chrome.storage.local`): a flat record of keys, any of which
 * may be missing, and the "falsy value means default" reads the scripts apply to it.
 */
module Settings {
  import opened Wrappers

  const DefaultApiBaseUrl := "https://generativelanguage.googleapis.com/v1beta/models/"
  const DefaultDownloadPath := "GhibliImages"
  const DefaultThreshold: real := 0.7

  /** The configuration keys; `None` is a key that is not in storage. */
  datatype Settings = Settings(
    apiKey: Option<string>,
    apiBaseUrl: Option<string>,
    downloadPath: Option<string>,
    confidenceThreshold: Option<real>)

  /** A stored string counts as set only when present and non-empty (JavaScript truthiness). */
  predicate Truthy(o: Option<string>)
  {
    o.Some? && o.value != ""
  }

  /** `value || fallback` on a stored string. */
  function OrDefault(o: Option<string>, fallback: string): (r: string)
    ensures Truthy(o) ==> r == o.value
    ensures !Truthy(o) ==> r == fallback
    ensures fallback != "" ==> r != ""
  {
    if Truthy(o) then o.value else fallback
  }

  /** `confidenceThreshold || 0.7`: a missing or zero threshold reads as 0.7. */
  function EffectiveThreshold(t: Option<real>): (r: real)
    ensures r != 0.0
    ensures t.Some? && t.value != 0.0 ==> r == t.value
    ensures !(t.Some? && t.value != 0.0) ==> r == DefaultThreshold
  {
    if t.Some? && t.value != 0.0 then t.value else DefaultThreshold
  }

  /** `count || 0` on a stored counter. */
  function Count(o: Option<nat>): nat
  {
    if o.Some? then o.value else 0
  }

  /** The configuration written by a settings update: only the keys it carries change. */
  function Merge(prev: Settings, update: Settings): (r: Settings)
    ensures update.apiKey.Some? ==> r.apiKey == update.apiKey
    ensures update.apiKey.None? ==> r.apiKey == prev.apiKey
    ensures update.apiBaseUrl.Some? ==> r.apiBaseUrl == update.apiBaseUrl
    ensures update.apiBaseUrl.None? ==> r.apiBaseUrl == prev.apiBaseUrl
    ensures update.downloadPath.Some? ==> r.downloadPath == update.downloadPath
    ensures update.downloadPath.None? ==> r.downloadPath == prev.downloadPath
    ensures update.confidenceThreshold.Some? ==> r.confidenceThreshold == update.confidenceThreshold
    ensures update.confidenceThreshold.None? ==> r.confidenceThreshold == prev.confidenceThreshold
  {
    Settings(
      if update.apiKey.Some? then update.apiKey else prev.apiKey,
      if update.apiBaseUrl.Some? then update.apiBaseUrl else prev.apiBaseUrl,
      if update.downloadPath.Some? then update.downloadPath else prev.downloadPath,
      if update.confidenceThreshold.Some? then update.confidenceThreshold else prev.confidenceThreshold)
  }

  /** Applying the same update twice leaves what applying it once leaves. */
  lemma MergeIdempotent(s: Settings, u: Settings)
    ensures Merge(Merge(s, u), u) == Merge(s, u)
  {
  }

  /** The local storage area of the extension, shared by the page scanner and the background worker. */
  class Store {
    var enabled: Option<bool>
    var imagesProcessed: Option<nat>
    var imagesDownloaded: Option<nat>
    var settings: Settings

    /** Storage before anything was written to it. */
    constructor ()
      ensures enabled == None && imagesProcessed == None && imagesDownloaded == None
      ensures settings == Settings(None, None, None, None)
    {
      enabled := None;
      imagesProcessed := None;
      imagesDownloaded := None;
      settings := Settings(None, None, None, None);
    }

    /** The `onInstalled` handler: every key is written with its install-time default. */
    method Install()
      modifies this
      ensures enabled == Some(true)
      ensures imagesProcessed == Some(0) && imagesDownloaded == Some(0)
      ensures settings == Settings(Some(""), Some(DefaultApiBaseUrl), Some(DefaultDownloadPath), Some(DefaultThreshold))
    {
      enabled := Some(true);
      imagesProcessed := Some(0);
      imagesDownloaded := Some(0);
      settings := Settings(Some(""), Some(DefaultApiBaseUrl), Some(DefaultDownloadPath), Some(DefaultThreshold));
    }

    /** Read `imagesProcessed`, write it back one higher (a missing counter reads as 0). */
    method IncrementProcessed()
      modifies this
      ensures imagesProcessed == Some(Count(old(imagesProcessed)) + 1)
      ensures Count(imagesProcessed) == Count(old(imagesProcessed)) + 1
      ensures enabled == old(enabled) && imagesDownloaded == old(imagesDownloaded) && settings == old(settings)
    {
      var current := Count(imagesProcessed);
      imagesProcessed := Some(current + 1);
    }

    /** Read `imagesDownloaded`, write it back one higher (a missing counter reads as 0). */
    method IncrementDownloaded()
      modifies this
      ensures imagesDownloaded == Some(Count(old(imagesDownloaded)) + 1)
      ensures Count(imagesDownloaded) == Count(old(imagesDownloaded)) + 1
      ensures enabled == old(enabled) && imagesProcessed == old(imagesProcessed) && settings == old(settings)
    {
      var current := Count(imagesDownloaded);
      imagesDownloaded := Some(current + 1);
    }

    /** `chrome.storage.local.set(update)` for the configuration keys the update carries. */
    method SetSettings(update: Settings)
      modifies this
      ensures settings == Merge(old(settings), update)
      ensures enabled == old(enabled) && imagesProcessed == old(imagesProcessed)
      ensures imagesDownloaded == old(imagesDownloaded)
    {
      settings := Merge(settings, update);
    }
  }
}
