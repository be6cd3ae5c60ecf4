/** The Quran reader: the surah list, a surah's verses merged from three
  * editions (Arabic text, English translation, recitation audio), and the
  * one-verse-at-a-time audio playback. */
module QuranReader {
  import opened Wrappers

  datatype Surah = Surah(number: nat, name: string, englishName: string)

  /** An ayah as one edition lists it; the audio edition fills `audio`. */
  datatype EditionAyah = EditionAyah(number: nat, text: string, numberInSurah: nat, audio: string)

  /** An ayah as the reader shows it. */
  datatype DisplayAyah = DisplayAyah(number: nat, text: string, numberInSurah: nat, translation: string, audio: string)

  /** The opening formula is shown above every surah except the first and
    * the ninth. */
  predicate ShowsBismillah(surahNumber: nat)
  {
    surahNumber != 1 && surahNumber != 9
  }

  /** The surahs numbered 1 to `k` that open with it. */
  function OpenedWithBismillah(k: nat): set<nat>
  {
    set n: nat | 1 <= n <= k && ShowsBismillah(n)
  }

  /** Counting up to `k`: every surah opens with it except the first and the
    * ninth. */
  lemma {:induction false} OpenedWithBismillahCount(k: nat)
    ensures |OpenedWithBismillah(k)| == k - (if k >= 9 then 2 else if k >= 1 then 1 else 0)
  {
    if k == 0 {
      assert OpenedWithBismillah(0) == {};
    } else {
      OpenedWithBismillahCount(k - 1);
      var prev := OpenedWithBismillah(k - 1);
      if ShowsBismillah(k) {
        assert OpenedWithBismillah(k) == prev + {k};
        assert k !in prev;
      } else {
        assert OpenedWithBismillah(k) == prev;
      }
    }
  }

  /** Of the 114 surahs, 112 open with the Bismillah; the two that do not are
    * the first and the ninth. */
  lemma BismillahOpensAllButTwo()
    ensures |OpenedWithBismillah(114)| == 112
    ensures 1 !in OpenedWithBismillah(114) && 9 !in OpenedWithBismillah(114)
  {
    OpenedWithBismillahCount(114);
  }

  /** The index-aligned merge of the three editions. A translation or audio
    * list shorter than the Arabic one makes the merge throw (`None`). */
  function MergeEditions(arabic: seq<EditionAyah>, english: seq<EditionAyah>, audio: seq<EditionAyah>)
    : (r: Option<seq<DisplayAyah>>)
    ensures r.Some? <==> |english| >= |arabic| && |audio| >= |arabic|
    ensures r.Some? ==> |r.value| == |arabic|
    ensures r.Some? ==> forall i :: 0 <= i < |arabic| ==>
      r.value[i] == DisplayAyah(arabic[i].number, arabic[i].text, arabic[i].numberInSurah, english[i].text, audio[i].audio)
  {
    if |english| < |arabic| || |audio| < |arabic| then None
    else Some(seq(|arabic|, i requires 0 <= i < |arabic| =>
      DisplayAyah(arabic[i].number, arabic[i].text, arabic[i].numberInSurah, english[i].text, audio[i].audio)))
  }

  /** The reply to the surah-content request. */
  datatype ContentReply = ContentEditions(code: int, editions: seq<seq<EditionAyah>>) | ContentFailed

  /** The reply to the surah-list request. */
  datatype ListReply = ListData(code: int, surahs: seq<Surah>) | ListFailed

  const LIST_ERROR := "Failed to load Surah list."
  const CONNECTION_ERROR := "Connection error."
  const CONTENT_ERROR := "Failed to load Surah content."
  const FETCH_ERROR := "Could not fetch Surah. Please check connection."

  /** What `fetchSurahContent` ends with: the verses, or an error. A merge
    * that throws lands in the `catch`. */
  datatype Content = Verses(verses: seq<DisplayAyah>) | ContentError(message: string)

  function ContentOf(reply: ContentReply): (r: Content)
    ensures reply.ContentFailed? ==> r == ContentError(FETCH_ERROR)
    ensures reply.ContentEditions? && (reply.code != 200 || |reply.editions| != 3) ==> r == ContentError(CONTENT_ERROR)
    ensures reply.ContentEditions? && reply.code == 200 && |reply.editions| == 3 ==>
      var arabic, english, audio := reply.editions[0], reply.editions[1], reply.editions[2];
      && (r.Verses? <==> |english| >= |arabic| && |audio| >= |arabic|)
      && (r.ContentError? ==> r.message == FETCH_ERROR)
      && (r.Verses? ==> |r.verses| == |arabic| && forall i :: 0 <= i < |arabic| ==>
            r.verses[i] == DisplayAyah(arabic[i].number, arabic[i].text, arabic[i].numberInSurah,
                                       english[i].text, audio[i].audio))
  {
    match reply
    case ContentFailed => ContentError(FETCH_ERROR)
    case ContentEditions(code, editions) =>
      if code == 200 && |editions| == 3 then
        match MergeEditions(editions[0], editions[1], editions[2])
        case Some(vs) => Verses(vs)
        case None => ContentError(FETCH_ERROR)
      else ContentError(CONTENT_ERROR)
  }

  /** The browser's audio element, as far as playback goes. */
  class Audio {
    var src: string
    var paused: bool

    /** `new Audio(url)` has not started. */
    constructor (url: string)
      ensures src == url && paused
    {
      src := url;
      paused := true;
    }

    /** `play()`; a rejected play is only logged, so it is taken to start. */
    method Play()
      modifies this
      ensures !paused && src == old(src)
    {
      paused := false;
    }

    method Pause()
      modifies this
      ensures paused && src == old(src)
    {
      paused := true;
    }
  }

  class QuranReaderView {
    var surahs: seq<Surah>
    var selectedSurah: Option<Surah>
    var verses: seq<DisplayAyah>
    var loading: bool
    var loadingSurah: bool
    var error: Option<string>
    var playingAyah: Option<nat>
    var audio: Audio?

    /** A verse is marked as playing only while an audio element is held. */
    predicate Valid()
      reads this
    {
      playingAyah.Some? ==> audio != null
    }

    constructor ()
      ensures Valid()
      ensures surahs == [] && selectedSurah == None && verses == [] && loading && !loadingSurah
      ensures error == None && playingAyah == None && audio == null
    {
      surahs := [];
      selectedSurah := None;
      verses := [];
      loading := true;
      loadingSurah := false;
      error := None;
      playingAyah := None;
      audio := null;
    }

    /** The mount effect's request for the surah list, once it settles. */
    method SurahListArrived(reply: ListReply)
      modifies this`surahs, this`error, this`loading
      ensures !loading
      ensures reply.ListData? && reply.code == 200 ==> surahs == reply.surahs && error == old(error)
      ensures reply.ListData? && reply.code != 200 ==> surahs == old(surahs) && error == Some(LIST_ERROR)
      ensures reply.ListFailed? ==> surahs == old(surahs) && error == Some(CONNECTION_ERROR)
    {
      match reply {
        case ListData(code, list) =>
          if code == 200 {
            surahs := list;
          } else {
            error := Some(LIST_ERROR);
          }
        case ListFailed =>
          error := Some(CONNECTION_ERROR);
      }
      loading := false;
    }

    /** Stopping and dropping the audio element, as the content reset and
      * the unmount cleanup do. */
    method ReleaseAudio()
      modifies this`audio, audio
      ensures audio == null
      ensures old(audio) != null ==> old(audio).paused
    {
      if audio != null {
        audio.Pause();
        audio := null;
      }
    }

    /** `handleSurahClick` and `fetchSurahContent`: the surah is selected,
      * the old verses and playback are cleared before the request, and the
      * reply decides the new verses or the error. */
    method SurahClick(surah: Surah, reply: ContentReply)
      modifies this, audio
      ensures Valid()
      ensures selectedSurah == Some(surah) && !loadingSurah
      ensures playingAyah == None && audio == null
      ensures old(audio) != null ==> old(audio).paused
      ensures ContentOf(reply).Verses? ==> verses == ContentOf(reply).verses && error == None
      ensures ContentOf(reply).ContentError? ==> verses == [] && error == Some(ContentOf(reply).message)
      ensures surahs == old(surahs) && loading == old(loading)
    {
      selectedSurah := Some(surah);
      loadingSurah := true;
      error := None;
      verses := [];
      ReleaseAudio();
      playingAyah := None;
      var content := ContentOf(reply);
      match content {
        case Verses(vs) => verses := vs;
        case ContentError(message) => error := Some(message);
      }
      loadingSurah := false;
    }

    /** `togglePlay`: the playing verse is paused and unmarked; any other verse
      * stops the current audio and starts its own in a new element. */
    method TogglePlay(ayahNumber: nat, audioUrl: string)
      requires Valid()
      modifies this`playingAyah, this`audio, audio
      ensures Valid()
      ensures old(playingAyah) == Some(ayahNumber) ==>
        playingAyah == None && audio == old(audio) && audio.paused
      ensures old(playingAyah) != Some(ayahNumber) ==>
        && playingAyah == Some(ayahNumber)
        && audio != null && fresh(audio) && audio.src == audioUrl && !audio.paused
        && (old(audio) != null ==> old(audio).paused)
    {
      if playingAyah == Some(ayahNumber) {
        if audio != null {
          audio.Pause();
          playingAyah := None;
        }
      } else {
        if audio != null {
          audio.Pause();
        }
        var newAudio := new Audio(audioUrl);
        newAudio.Play();
        audio := newAudio;
        playingAyah := Some(ayahNumber);
      }
    }

    /** The `ended` listener of an element unmarks the playing verse. */
    method AudioEnded()
      modifies this`playingAyah
      ensures playingAyah == None
    {
      playingAyah := None;
    }

    /** The unmount cleanup. */
    method Unmount()
      modifies this`audio, audio
      ensures audio == null
      ensures old(audio) != null ==> old(audio).paused
    {
      ReleaseAudio();
    }
  }
}
