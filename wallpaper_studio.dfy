/** The wallpaper studio: a fixed gallery of sample and generated wallpaper
  * entries, and a prompt editor that can quote a Quran verse chosen from a
  * surah's Arabic text merged with its English translation. */
module WallpaperStudio {
  import opened Wrappers
  import opened Text

  datatype Wallpaper = Wallpaper(id: string, url: string, title: string)

  // ---------------------------------------------------------------------
  // Gallery

  const SAMPLE_WALLPAPERS: seq<Wallpaper> := [
    Wallpaper("static-1", "https://images.unsplash.com/photo-1564121211835-e88c852648ab?q=80&w=1000&auto=format&fit=crop", "Blue Mosque"),
    Wallpaper("static-2", "https://images.unsplash.com/photo-1584551246679-0daf3d275d0f?q=80&w=1000&auto=format&fit=crop", "Quran Recitation"),
    Wallpaper("static-3", "https://images.unsplash.com/photo-1542283087-25e114175317?q=80&w=1000&auto=format&fit=crop", "Medina Sunset"),
    Wallpaper("static-4", "https://images.unsplash.com/photo-1519817914152-22d216bb9170?q=80&w=1000&auto=format&fit=crop", "Islamic Geometry"),
    Wallpaper("static-5", "https://images.unsplash.com/photo-1597956324263-23a54911d331?q=80&w=1000&auto=format&fit=crop", "Lanterns"),
    Wallpaper("static-6", "https://images.unsplash.com/photo-1551041777-ed02bed788a6?q=80&w=1000&auto=format&fit=crop", "Prayer Beads")
  ]

  const GENERATED_COUNT: nat := 102
  const COLLECTIONS: seq<string> := ["827743", "335434", "4739599", "4463728"]
  const TITLES: seq<string> := ["Islamic Life", "Mosque", "Ramadan", "Islamic Art"]

  /** Generated entry `i`: collection and title `i mod 4`, signature `i`,
    * numbered from 1 in its title. */
  function Generated(i: nat): Wallpaper
  {
    var idx := i % |COLLECTIONS|;
    Wallpaper(
      "gen-" + NatToString(i),
      "https://source.unsplash.com/collection/" + COLLECTIONS[idx] + "/720x1280?sig=" + NatToString(i),
      TITLES[idx] + " " + NatToString(i + 1))
  }

  /** `galleryWallpapers`: the samples, then the generated entries. */
  function Gallery(): (r: seq<Wallpaper>)
    ensures |r| == |SAMPLE_WALLPAPERS| + GENERATED_COUNT == 108
    ensures r[..|SAMPLE_WALLPAPERS|] == SAMPLE_WALLPAPERS
    ensures forall i :: 0 <= i < GENERATED_COUNT ==> r[|SAMPLE_WALLPAPERS| + i] == Generated(i)
  {
    var generated := seq(GENERATED_COUNT, i requires 0 <= i < GENERATED_COUNT => Generated(i));
    var r := SAMPLE_WALLPAPERS + generated;
    assert r[..|SAMPLE_WALLPAPERS|] == SAMPLE_WALLPAPERS;
    r
  }

  /** The id of generated entry `i` reads back as `i`. */
  lemma GeneratedIdReadsBack(i: nat)
    ensures var id := Generated(i).id;
      |id| > 4 && id[..4] == "gen-" && AllDigits(id[4..]) && DigitsValue(id[4..]) == i
  {
    var id := Generated(i).id;
    assert id[4..] == NatToString(i);
    NatToStringRoundTrip(i);
  }

  lemma GeneratedIdsDistinct(i: nat, j: nat)
    requires i != j
    ensures Generated(i).id != Generated(j).id
  {
    GeneratedIdReadsBack(i);
    GeneratedIdReadsBack(j);
  }

  /** Every sample id starts with 's', every generated one with 'g'. */
  lemma SampleIdsDistinct(i: nat, j: nat)
    requires i < j < |SAMPLE_WALLPAPERS|
    ensures SAMPLE_WALLPAPERS[i].id != SAMPLE_WALLPAPERS[j].id
    ensures SAMPLE_WALLPAPERS[i].id[0] == 's'
  {
    assert SAMPLE_WALLPAPERS[i].id[7] as int - '0' as int == i + 1;
    assert SAMPLE_WALLPAPERS[j].id[7] as int - '0' as int == j + 1;
  }

  /** The 108 gallery ids are pairwise distinct. */
  lemma GalleryIdsDistinct(i: nat, j: nat)
    requires i < j < |Gallery()|
    ensures Gallery()[i].id != Gallery()[j].id
  {
    var g := Gallery();
    var n := |SAMPLE_WALLPAPERS|;
    if j < n {
      assert g[i] == SAMPLE_WALLPAPERS[i] && g[j] == SAMPLE_WALLPAPERS[j];
      SampleIdsDistinct(i, j);
    } else if i < n {
      assert g[i] == SAMPLE_WALLPAPERS[i] && g[j] == Generated(j - n);
      if i + 1 < n { SampleIdsDistinct(i, i + 1); } else { SampleIdsDistinct(i - 1, i); }
      assert g[j].id[0] == 'g';
    } else {
      assert g[i] == Generated(i - n) && g[j] == Generated(j - n);
      GeneratedIdsDistinct(i - n, j - n);
    }
  }

  // ---------------------------------------------------------------------
  // Verses

  datatype Surah = Surah(number: nat, name: string, englishName: string)

  /** An ayah; `translation` is `None` until the English text is merged in. */
  datatype Ayah = Ayah(number: nat, text: string, numberInSurah: nat, translation: Option<string>)

  /** `${ayah.translation}`: an absent translation prints "undefined". */
  function TranslationText(a: Ayah): string
  {
    if a.translation.Some? then a.translation.value else "undefined"
  }

  /** The quotation of a verse with its reference. */
  function VerseText(a: Ayah, s: Surah): string
  {
    "\"" + TranslationText(a) + "\" (Quran " + s.englishName + " " + NatToString(s.number) + ":"
      + NatToString(a.numberInSurah) + ")"
  }

  const VERSE_LEAD := "Theme based on verse: "

  /** The prompt after a verse is quoted: a blank line first, unless the old
    * prompt is blank. */
  function PromptWithVerse(prev: string, verseText: string): (r: string)
    ensures prev <= r
    ensures r == prev + (if Blank(prev) then "" else "\n\n") + VERSE_LEAD + verseText
  {
    TrimEmptyIffBlank(prev);
    var separator := if Trim(prev) != "" then "\n\n" else "";
    prev + separator + VERSE_LEAD + verseText
  }

  /** The separator appears exactly when the old prompt has a non-space
    * character, and the quotation is at the very end. */
  lemma PromptEndsWithVerse(prev: string, verseText: string)
    ensures var r := PromptWithVerse(prev, verseText);
      && |r| == |prev| + (if Blank(prev) then 0 else 2) + |VERSE_LEAD| + |verseText|
      && r[|r| - |verseText|..] == verseText
      && r[|prev|..|r| - |verseText|] == (if Blank(prev) then "" else "\n\n") + VERSE_LEAD
  {
    var sep := if Blank(prev) then "" else "\n\n";
    var r := PromptWithVerse(prev, verseText);
    assert r == prev + (sep + VERSE_LEAD) + verseText;
  }

  /** The index-aligned merge of the Arabic ayahs with the English ones: the
    * Arabic fields with the English text as translation. An English list
    * shorter than the Arabic one makes `english[index].text` throw
    * (`None`). */
  function MergeTranslations(arabic: seq<Ayah>, english: seq<Ayah>): (r: Option<seq<Ayah>>)
    ensures r.Some? <==> |english| >= |arabic|
    ensures r.Some? ==> |r.value| == |arabic|
    ensures r.Some? ==> forall i :: 0 <= i < |arabic| ==>
      r.value[i] == arabic[i].(translation := Some(english[i].text))
  {
    if |english| < |arabic| then None
    else Some(seq(|arabic|, i requires 0 <= i < |arabic| => arabic[i].(translation := Some(english[i].text))))
  }

  /** The merge keeps the Arabic text and numbering, and the translation of
    * each ayah is the English text at the same index. */
  lemma MergeKeepsArabic(arabic: seq<Ayah>, english: seq<Ayah>, i: nat)
    requires |english| >= |arabic| && i < |arabic|
    ensures var m := MergeTranslations(arabic, english).value[i];
      && m.text == arabic[i].text && m.number == arabic[i].number && m.numberInSurah == arabic[i].numberInSurah
      && TranslationText(m) == english[i].text
  {
  }

  /** The editions reply: a status code and the editions' ayah lists, or a
    * failed request. */
  datatype EditionsReply = Editions(code: int, editions: seq<seq<Ayah>>) | EditionsFailed

  /** The ayahs `handleSurahSelect` stores, if any. */
  function AyahsFrom(reply: EditionsReply): (r: Option<seq<Ayah>>)
    ensures r.Some? ==> reply.Editions? && reply.code == 200 && |reply.editions| == 2
    ensures reply.Editions? && reply.code == 200 && |reply.editions| == 2 ==>
      var arabic, english := reply.editions[0], reply.editions[1];
      && (r.Some? <==> |english| >= |arabic|)
      && (r.Some? ==> |r.value| == |arabic| && forall i :: 0 <= i < |arabic| ==>
            r.value[i] == arabic[i].(translation := Some(english[i].text)))
  {
    if reply.Editions? && reply.code == 200 && |reply.editions| == 2 then
      MergeTranslations(reply.editions[0], reply.editions[1])
    else None
  }

  // ---------------------------------------------------------------------
  // The studio's state

  /** What the image call brings back: an image, no image, or an error with
    * its message (possibly empty). */
  datatype ImageOutcome = ImageMade(image: Option<string>) | ImageFailed(message: string)

  const NO_IMAGE_ERROR := "Could not generate image. Please try a different prompt."
  const GENERATE_ERROR := "Error generating wallpaper. Please check your connection."

  class WallpaperStudioView {
    var prompt: string
    var generatedImage: Option<string>
    var loading: bool
    var error: Option<string>
    var showVerseSelector: bool
    var ayahs: seq<Ayah>
    var selectedSurah: Option<Surah>
    var loadingVerses: bool

    constructor ()
      ensures prompt == "" && generatedImage == None && !loading && error == None
      ensures !showVerseSelector && ayahs == [] && selectedSurah == None && !loadingVerses
    {
      prompt := "";
      generatedImage := None;
      loading := false;
      error := None;
      showVerseSelector := false;
      ayahs := [];
      selectedSurah := None;
      loadingVerses := false;
    }

    /** `handleSurahSelect`, from the click to the end of the request. */
    method SurahSelect(surah: Surah, reply: EditionsReply)
      modifies this`selectedSurah, this`loadingVerses, this`ayahs
      ensures selectedSurah == Some(surah) && !loadingVerses
      ensures AyahsFrom(reply).Some? ==> ayahs == AyahsFrom(reply).value
      ensures AyahsFrom(reply).None? ==> ayahs == old(ayahs)
    {
      selectedSurah := Some(surah);
      loadingVerses := true;
      var merged := AyahsFrom(reply);
      if merged.Some? {
        ayahs := merged.value;
      }
      loadingVerses := false;
    }

    /** `handleVerseSelect`: ignored without a surah; otherwise the verse is
      * quoted at the end of the prompt and the selector is closed. */
    method VerseSelect(ayah: Ayah)
      modifies this`prompt, this`showVerseSelector, this`selectedSurah, this`ayahs
      ensures old(selectedSurah).None? ==>
        prompt == old(prompt) && showVerseSelector == old(showVerseSelector) && ayahs == old(ayahs) && selectedSurah == None
      ensures old(selectedSurah).Some? ==>
        && prompt == PromptWithVerse(old(prompt), VerseText(ayah, old(selectedSurah).value))
        && !showVerseSelector && selectedSurah == None && ayahs == []
    {
      if selectedSurah.None? {
        return;
      }
      var verseText := VerseText(ayah, selectedSurah.value);
      prompt := PromptWithVerse(prompt, verseText);
      showVerseSelector := false;
      selectedSurah := None;
      ayahs := [];
    }

    /** The image call's outcome on screen: a non-empty image and no error,
      * or no image and the matching error. */
    predicate Shows(outcome: ImageOutcome)
      reads this
    {
      && (outcome.ImageMade? && outcome.image.Some? && outcome.image.value != "" ==>
            generatedImage == outcome.image && error == None)
      && (outcome.ImageMade? && (outcome.image.None? || outcome.image.value == "") ==>
            generatedImage == None && error == Some(NO_IMAGE_ERROR))
      && (outcome.ImageFailed? ==>
            generatedImage == None && error == Some(if outcome.message != "" then outcome.message else GENERATE_ERROR))
    }

    method ShowOutcome(outcome: ImageOutcome)
      modifies this`error, this`generatedImage
      ensures Shows(outcome)
    {
      error := None;
      generatedImage := None;
      match outcome {
        case ImageMade(image) =>
          if image.Some? && image.value != "" {
            generatedImage := image;
          } else {
            error := Some(NO_IMAGE_ERROR);
          }
        case ImageFailed(message) =>
          error := Some(if message != "" then message else GENERATE_ERROR);
      }
    }

    /** `handleGenerate`: a prompt that trims to nothing does nothing;
      * otherwise the image call's outcome is shown. */
    method Generate(outcome: ImageOutcome)
      modifies this`loading, this`error, this`generatedImage
      ensures Trim(prompt) == "" ==>
        loading == old(loading) && error == old(error) && generatedImage == old(generatedImage)
      ensures Trim(prompt) != "" ==> !loading && Shows(outcome)
    {
      var trimmed := Trim(prompt);
      if trimmed == "" {
        return;
      }
      loading := true;
      ShowOutcome(outcome);
      loading := false;
      assert prompt == old(prompt);
    }
  }
}
