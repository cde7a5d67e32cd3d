/**
 * The plant-identifier page: the selected images and their previews, removal of an
 * image, the form sent for identification, and the heading of the profile warning.
 */
module PlantIdentifier {
  import opened Wrappers
  import opened Strings
  import opened Lists
  import Helpers

  /** The page keeps at most this many of the files dropped or picked. */
  const MaxSelected: nat := 3

  const IdentifyFailed := "Failed to identify plant. Please try again."

  /** What the page saves to the plant history: the preview addresses and the results. */
  datatype PlantSnapshot<R> = PlantSnapshot(images: seq<string>, results: Option<R>)

  /** A field of the multipart form sent to the server. */
  datatype FormField<F> = FileField(name: string, file: F) | TextField(name: string, value: string)

  /** The first `MaxSelected` files. */
  function Selected<F>(files: seq<F>): (r: seq<F>)
    ensures |r| <= MaxSelected && |r| <= |files|
    ensures r == files[..|r|]
    ensures |files| <= MaxSelected ==> r == files
  {
    if |files| <= MaxSelected then files else files[..MaxSelected]
  }

  /** Each image has its own preview, at the same index. */
  predicate Paired<F>(images: seq<F>, previews: seq<string>, objectUrl: F -> string) {
    |previews| == |images| && forall i :: 0 <= i < |images| ==> previews[i] == objectUrl(images[i])
  }

  /** `removeImage` as written: the image goes, the previews stay as they were. */
  function RemovedAsWritten<F>(images: seq<F>, previews: seq<string>, index: int): (seq<F>, seq<string>) {
    (RemoveAt(images, index), previews)
  }

  /** Removing a selected image leaves one preview too many. */
  lemma RemovedAsWrittenDesyncs<F>(images: seq<F>, previews: seq<string>, objectUrl: F -> string, index: int)
    requires Paired(images, previews, objectUrl) && 0 <= index < |images|
    ensures |RemovedAsWritten(images, previews, index).1| == |RemovedAsWritten(images, previews, index).0| + 1
  {
  }

  /** The intended removal: the image and its preview go together. */
  function Removed<F>(images: seq<F>, previews: seq<string>, index: int): (seq<F>, seq<string>) {
    (RemoveAt(images, index), RemoveAt(previews, index))
  }

  /** The intended removal keeps every remaining image with its own preview. */
  lemma RemovedKeepsPairs<F>(images: seq<F>, previews: seq<string>, objectUrl: F -> string, index: int)
    requires Paired(images, previews, objectUrl)
    ensures Paired(Removed(images, previews, index).0, Removed(images, previews, index).1, objectUrl)
  {
    if 0 <= index < |images| {
      var a := RemoveAt(images, index);
      var b := RemoveAt(previews, index);
      forall i | 0 <= i < |a| ensures b[i] == objectUrl(a[i]) {
        if i < index {
          assert a[i] == images[i] && b[i] == previews[i];
        } else {
          assert a[i] == images[i + 1] && b[i] == previews[i + 1];
        }
      }
    }
  }

  /**
   * The form fields: one `images` field per selected file in order, then the profile as
   * JSON when there is one, then the language, `en` when none is set.
   */
  function FormFields<F, P>(images: seq<F>, userProfile: Option<P>, language: string, stringify: P -> string): (r: seq<FormField<F>>)
    ensures |r| == |images| + (if userProfile.Some? then 1 else 0) + 1
    ensures forall i :: 0 <= i < |images| ==> r[i] == FileField("images", images[i])
    ensures userProfile.Some? ==> r[|images|] == TextField("userProfile", stringify(userProfile.value))
    ensures r[|r| - 1] == TextField("language", OrElse(language, "en"))
    ensures forall i :: 0 <= i < |r| && r[i].FileField? ==> i < |images|
  {
    var files := seq(|images|, i requires 0 <= i < |images| => FileField("images", images[i]));
    var profile := if userProfile.Some? then [TextField("userProfile", stringify(userProfile.value))] else [];
    files + profile + [TextField("language", OrElse(language, "en"))]
  }

  const HealthWarning := "\U{26A0}\U{FE0F} HEALTH WARNING"
  const Caution := "\U{26A0}\U{FE0F} CAUTION"
  const SafeForYou := "\U{2705} Safe for You"

  /** The heading over the profile warning; the severity test is case-sensitive. */
  function WarningHeading(hasWarning: bool, severity: string): (r: string)
    ensures r in {HealthWarning, Caution, SafeForYou}
    ensures r == HealthWarning <==> hasWarning && severity == "High"
    ensures r == Caution <==> hasWarning && severity != "High"
    ensures r == SafeForYou <==> !hasWarning
  {
    if hasWarning then (if severity == "High" then HealthWarning else Caution) else SafeForYou
  }

  /** The page's state; `F` is a selected file and `R` the identification the server sends. */
  class PlantPage<F, R> {
    var images: seq<F>
    var previews: seq<string>
    var isAnalyzing: bool
    var results: Option<R>
    var error: string

    constructor ()
      ensures images == [] && previews == [] && !isAnalyzing && results == None && error == ""
    {
      images := [];
      previews := [];
      isAnalyzing := false;
      results := None;
      error := "";
    }

    /** `handleFileSelect`; `objectUrl` stands for `URL.createObjectURL`. */
    method HandleFileSelect(files: seq<F>, objectUrl: F -> string)
      modifies this
      ensures images == Selected(files)
      ensures Paired(images, previews, objectUrl)
      ensures error == ""
      ensures isAnalyzing == old(isAnalyzing) && results == old(results)
    {
      var kept := Selected(files);
      images := kept;
      previews := seq(|kept|, i requires 0 <= i < |kept| => objectUrl(kept[i]));
      error := "";
    }

    /**
     * `removeImage` as written: the image at `index` goes, the previews stay, and the
     * current previews and results are saved to the plant history.
     */
    method RemoveImage(index: int, store: Helpers.HistoryStore<PlantSnapshot<R>>, now: int, isoNow: string)
      returns (saved: Result<Helpers.Entry<PlantSnapshot<R>>, Helpers.StoreError>)
      modifies this, store
      ensures (images, previews) == RemovedAsWritten(old(images), old(previews), index)
      ensures old(Helpers.Load(store.storage, "plant")).Failure? ==>
        saved == Failure(old(Helpers.Load(store.storage, "plant")).error) && store.storage == old(store.storage)
      ensures old(Helpers.Load(store.storage, "plant")).Success? ==>
        && saved == Success(Helpers.Entry(now, isoNow, PlantSnapshot(old(previews), old(results))))
        && store.storage == old(store.storage)[Helpers.HistoryKey("plant") :=
             Helpers.Stored(Helpers.Prepend(old(Helpers.Load(store.storage, "plant")).value, saved.value))]
      ensures isAnalyzing == old(isAnalyzing) && results == old(results) && error == old(error)
    {
      images := RemoveAt(images, index);
      saved := store.SaveToHistory("plant", PlantSnapshot(previews, results), now, isoNow);
    }

    /** The intended `removeImage`: the image and its preview go, and nothing is saved. */
    method RemoveImageCorrected(index: int, ghost objectUrl: F -> string)
      requires Paired(images, previews, objectUrl)
      modifies this
      ensures (images, previews) == Removed(old(images), old(previews), index)
      ensures Paired(images, previews, objectUrl)
      ensures isAnalyzing == old(isAnalyzing) && results == old(results) && error == old(error)
    {
      RemovedKeepsPairs(images, previews, objectUrl, index);
      images := RemoveAt(images, index);
      previews := RemoveAt(previews, index);
    }

    /** `handleSaveToHistory`: saves the current previews and results. */
    method HandleSaveToHistory(store: Helpers.HistoryStore<PlantSnapshot<R>>, now: int, isoNow: string)
      returns (saved: Result<Helpers.Entry<PlantSnapshot<R>>, Helpers.StoreError>)
      modifies store
      ensures old(Helpers.Load(store.storage, "plant")).Failure? ==>
        saved == Failure(old(Helpers.Load(store.storage, "plant")).error) && store.storage == old(store.storage)
      ensures old(Helpers.Load(store.storage, "plant")).Success? ==>
        && saved == Success(Helpers.Entry(now, isoNow, PlantSnapshot(previews, results)))
        && store.storage == old(store.storage)[Helpers.HistoryKey("plant") :=
             Helpers.Stored(Helpers.Prepend(old(Helpers.Load(store.storage, "plant")).value, saved.value))]
    {
      saved := store.SaveToHistory("plant", PlantSnapshot(previews, results), now, isoNow);
    }

    /**
     * The synchronous part of `handleIdentify`: nothing happens without images;
     * otherwise the page is marked busy and the form is built.
     */
    method BeginIdentify<P>(userProfile: Option<P>, language: string, stringify: P -> string)
      returns (form: Option<seq<FormField<F>>>)
      modifies this
      ensures old(images) == [] ==> form == None && isAnalyzing == old(isAnalyzing) && error == old(error)
      ensures old(images) != [] ==> form == Some(FormFields(old(images), userProfile, language, stringify)) && isAnalyzing && error == ""
      ensures images == old(images) && previews == old(previews) && results == old(results)
    {
      if |images| == 0 {
        return None;
      }
      isAnalyzing := true;
      error := "";
      form := Some(FormFields(images, userProfile, language, stringify));
    }

    /**
     * The rest of `handleIdentify`. The client wrapper throws a bare string, whose
     * `message` is undefined, so a failure always shows the page's own text.
     */
    method FinishIdentify(outcome: Option<R>)
      modifies this
      ensures !isAnalyzing
      ensures outcome.Some? ==> results == outcome && error == old(error)
      ensures outcome.None? ==> results == old(results) && error == IdentifyFailed
      ensures images == old(images) && previews == old(previews)
    {
      if outcome.Some? {
        results := outcome;
      } else {
        error := IdentifyFailed;
      }
      isAnalyzing := false;
    }
  }
}
