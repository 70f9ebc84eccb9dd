/**
 * Persistence of the options and the high scores shared by all minigames.
 *
 * Outside the browser build, each record is written whole to its own save
 * file ("Options.sav", "Scores.sav"); a file is modelled as an optional
 * record, absent until first written.  In the browser build the fields are
 * kept as separate entries of the platform's preference store, modelled as
 * a map from key to value.  Byte formats are not modelled.
 */
module Saving {
  import opened Wrappers

  /** The options record: language code, first-run flag, volume and fullscreen flag. */
  datatype OptionsData = OptionsData(activeLanguage: string, firstTimeLanguage: bool, gameVolume: int, fullscreen: bool)

  /** The two scores kept by the two-player minigames (2 and 11). */
  datatype Pair = Pair(first: int, second: int)

  /** The scores record: one score per minigame, a pair for games 2 and 11. */
  datatype ScoreData = ScoreData(
    score1: int, score2: Pair, score3: int, score4: int, score5: int, score6: int,
    score7: int, score8: int, score9: int, score10: int, score11: Pair, score12: int)

  /** The options a fresh installation starts with. */
  const DefaultOptions := OptionsData("EN", false, 100, false)

  /** The scores a fresh installation starts with, and what deleting the scores leaves. */
  const ZeroScores := ScoreData(0, Pair(0, 0), 0, 0, 0, 0, 0, 0, 0, 0, Pair(0, 0), 0)

  /** An entry of the browser preference store. */
  datatype Pref = IntPref(i: int) | StringPref(s: string)

  type Prefs = map<string, Pref>

  /** The keys under which the browser build keeps the options. */
  const OptionKeys: set<string> := {"ActiveLanguage", "FirstTimeLanguage", "GameVolume"}

  /** The integer stored under `key`, or `default` when there is none. */
  function GetInt(prefs: Prefs, key: string, default: int): int
  {
    if key in prefs && prefs[key].IntPref? then prefs[key].i else default
  }

  /** The string stored under `key`, or `default` when there is none. */
  function GetString(prefs: Prefs, key: string, default: string): string
  {
    if key in prefs && prefs[key].StringPref? then prefs[key].s else default
  }

  /** The browser build stores the first-run flag as the integer 1 or 0. */
  function FlagToInt(b: bool): (i: int)
    ensures i == 0 || i == 1
    ensures i == 1 <==> b
  {
    if b then 1 else 0
  }

  /**
   * The options the browser build reads back: missing entries give the
   * defaults, and the fullscreen flag, which is not stored there, keeps
   * its current value.
   */
  function PrefsOptions(current: OptionsData, prefs: Prefs): (o: OptionsData)
    ensures o.fullscreen == current.fullscreen
    ensures "ActiveLanguage" !in prefs ==> o.activeLanguage == DefaultOptions.activeLanguage
    ensures "FirstTimeLanguage" !in prefs ==> o.firstTimeLanguage == DefaultOptions.firstTimeLanguage
    ensures "GameVolume" !in prefs ==> o.gameVolume == DefaultOptions.gameVolume
    ensures OptionKeys !! prefs.Keys ==> o == DefaultOptions.(fullscreen := current.fullscreen)
  {
    var firstTime := GetInt(prefs, "FirstTimeLanguage", 0);
    OptionsData(
      GetString(prefs, "ActiveLanguage", "EN"),
      firstTime == 1,
      GetInt(prefs, "GameVolume", 100),
      current.fullscreen)
  }

  /** The preference store after the browser build saves the options `o`. */
  function WithOptions(prefs: Prefs, o: OptionsData): (p: Prefs)
    ensures p.Keys == prefs.Keys + OptionKeys
    ensures forall k :: k in prefs && k !in OptionKeys ==> p[k] == prefs[k]
    // the language as a string, the first-run flag as 1 or 0, the volume as an integer
    ensures p["ActiveLanguage"] == StringPref(o.activeLanguage)
    ensures p["FirstTimeLanguage"] == IntPref(FlagToInt(o.firstTimeLanguage))
    ensures p["GameVolume"] == IntPref(o.gameVolume)
  {
    prefs["ActiveLanguage" := StringPref(o.activeLanguage)]
         ["FirstTimeLanguage" := IntPref(FlagToInt(o.firstTimeLanguage))]
         ["GameVolume" := IntPref(o.gameVolume)]
  }

  /** Browser save then load gives back language, flag and volume; fullscreen is not stored. */
  lemma PrefsOptionsRoundTrip(prefs: Prefs, o: OptionsData, current: OptionsData)
    ensures PrefsOptions(current, WithOptions(prefs, o)) == o.(fullscreen := current.fullscreen)
  {
  }

  /** The keys of the score entries, in the order of the fields of `ScoreData`. */
  const ScoreKeyList: seq<string> := [
    "Score1", "Score2-0", "Score2-1", "Score3", "Score4", "Score5", "Score6",
    "Score7", "Score8", "Score9", "Score10", "Score11-0", "Score11-1", "Score12"]

  /** The keys from which the browser build reads the scores. */
  const ScoreKeys: set<string> := set k | k in ScoreKeyList

  /** The fourteen numbers of a scores record, both elements of each pair included, in field order. */
  function ScoreList(d: ScoreData): (l: seq<int>)
    ensures |l| == |ScoreKeyList|
  {
    [d.score1, d.score2.first, d.score2.second, d.score3, d.score4, d.score5, d.score6,
     d.score7, d.score8, d.score9, d.score10, d.score11.first, d.score11.second, d.score12]
  }

  /**
   * `value` is what an integer read of `key` gives: the stored integer when
   * the entry holds one, and 0 when it is missing or holds a string.
   */
  ghost predicate ReadsAs(prefs: Prefs, key: string, value: int)
  {
    && (key in prefs && prefs[key].IntPref? ==> value == prefs[key].i)
    && (!(key in prefs && prefs[key].IntPref?) ==> value == 0)
  }

  /** The scores the browser build reads back, each entry defaulting to 0. */
  function PrefsScores(prefs: Prefs): (d: ScoreData)
    ensures forall k :: 0 <= k < |ScoreKeyList| ==> ReadsAs(prefs, ScoreKeyList[k], ScoreList(d)[k])
  {
    ScoreData(
      GetInt(prefs, "Score1", 0),
      Pair(GetInt(prefs, "Score2-0", 0), GetInt(prefs, "Score2-1", 0)),
      GetInt(prefs, "Score3", 0),
      GetInt(prefs, "Score4", 0),
      GetInt(prefs, "Score5", 0),
      GetInt(prefs, "Score6", 0),
      GetInt(prefs, "Score7", 0),
      GetInt(prefs, "Score8", 0),
      GetInt(prefs, "Score9", 0),
      GetInt(prefs, "Score10", 0),
      Pair(GetInt(prefs, "Score11-0", 0), GetInt(prefs, "Score11-1", 0)),
      GetInt(prefs, "Score12", 0))
  }

  /** With none of the score entries present, the browser build reads back zero for every score. */
  lemma PrefsScoresMissing(prefs: Prefs)
    requires ScoreKeys !! prefs.Keys
    ensures PrefsScores(prefs) == ZeroScores
  {
  }

  /** The save manager: the live options and scores, and the storage they are saved to. */
  class SaveManager {
    /** True when the application runs as the browser build. */
    const browser: bool

    var activeLanguage: string
    var firstTimeLanguage: bool
    var gameVolume: int
    var fullscreen: bool

    /**
     * The twelve public score fields score1 … score12 (score2 and score11
     * are two-element arrays in the component), held as one record.
     */
    var scores: ScoreData

    /** The options save file, if it exists (file build). */
    var optionsFile: Option<OptionsData>
    /** The scores save file, if it exists (file build). */
    var scoresFile: Option<ScoreData>
    /** The platform preference store (browser build). */
    var prefs: Prefs

    /** The options record the fields hold. */
    function Options(): OptionsData
      reads this
    {
      OptionsData(activeLanguage, firstTimeLanguage, gameVolume, fullscreen)
    }

    /** The field initialisers: defaults for every option and zero for every score. */
    constructor (browser: bool, optionsFile: Option<OptionsData>, scoresFile: Option<ScoreData>, prefs: Prefs)
      ensures Options() == DefaultOptions && scores == ZeroScores
      ensures this.browser == browser && this.optionsFile == optionsFile
      ensures this.scoresFile == scoresFile && this.prefs == prefs
    {
      this.browser := browser;
      activeLanguage, firstTimeLanguage, gameVolume, fullscreen := "EN", false, 100, false;
      scores := ScoreData(0, Pair(0, 0), 0, 0, 0, 0, 0, 0, 0, 0, Pair(0, 0), 0);
      this.optionsFile, this.scoresFile, this.prefs := optionsFile, scoresFile, prefs;
    }

    /** The loads done when the single save manager is created. */
    method Awake()
      modifies this
      ensures browser ==> Options() == PrefsOptions(old(Options()), prefs)
      ensures !browser ==> Options() == (if optionsFile.Some? then optionsFile.value else old(Options()))
      ensures browser ==> scores == PrefsScores(prefs)
      ensures !browser ==> scores == (if scoresFile.Some? then scoresFile.value else old(scores))
      ensures optionsFile == old(optionsFile) && scoresFile == old(scoresFile) && prefs == old(prefs)
    {
      LoadOptions();
      LoadScores();
    }

    /** Loads the options: from the preference store, or from the save file if it exists. */
    method LoadOptions()
      modifies this`activeLanguage, this`firstTimeLanguage, this`gameVolume, this`fullscreen
      ensures browser ==> Options() == PrefsOptions(old(Options()), prefs)
      ensures !browser && optionsFile.None? ==> Options() == old(Options())
      ensures !browser && optionsFile.Some? ==> Options() == optionsFile.value
    {
      if browser {
        activeLanguage := GetString(prefs, "ActiveLanguage", "EN");
        var firstTime := GetInt(prefs, "FirstTimeLanguage", 0);
        gameVolume := GetInt(prefs, "GameVolume", 100);
        firstTimeLanguage := firstTime == 1;
        return;
      }
      if optionsFile.Some? {
        var data := optionsFile.value;
        activeLanguage := data.activeLanguage;
        firstTimeLanguage := data.firstTimeLanguage;
        gameVolume := data.gameVolume;
        fullscreen := data.fullscreen;
      }
    }

    /** Saves the options: three store entries, or the whole record to the save file. */
    method SaveOptions()
      modifies this`optionsFile, this`prefs
      ensures browser ==> prefs == WithOptions(old(prefs), Options()) && optionsFile == old(optionsFile)
      ensures !browser ==> optionsFile == Some(Options()) && prefs == old(prefs)
    {
      if browser {
        var firstTime := FlagToInt(firstTimeLanguage);
        prefs := prefs["ActiveLanguage" := StringPref(activeLanguage)];
        prefs := prefs["FirstTimeLanguage" := IntPref(firstTime)];
        prefs := prefs["GameVolume" := IntPref(gameVolume)];
        return;
      }
      optionsFile := Some(Options());
    }

    /** Loads the scores: each from its own store entry, or all from the save file if it exists. */
    method LoadScores()
      modifies this`scores
      ensures browser ==> scores == PrefsScores(prefs)
      ensures !browser && scoresFile.None? ==> scores == old(scores)
      ensures !browser && scoresFile.Some? ==> scores == scoresFile.value
    {
      if browser {
        scores := PrefsScores(prefs);
        return;
      }
      if scoresFile.Some? {
        scores := scoresFile.value;
      }
    }

    /**
     * Saves the scores.  The browser build only reads the store, so
     * nothing is written there; the file build writes the whole record.
     */
    method SaveScores()
      modifies this`scoresFile
      ensures browser ==> scoresFile == old(scoresFile)
      ensures !browser ==> scoresFile == Some(scores)
    {
      if browser {
        return;
      }
      scoresFile := Some(scores);
    }

    /** Sets every score, both elements of the two pairs included, to 0 and saves the scores. */
    method DeleteScores()
      modifies this`scores, this`scoresFile
      ensures scores == ZeroScores
      ensures browser ==> scoresFile == old(scoresFile)
      ensures !browser ==> scoresFile == Some(ZeroScores)
    {
      scores := ScoreData(0, Pair(0, 0), 0, 0, 0, 0, 0, 0, 0, 0, Pair(0, 0), 0);
      SaveScores();
    }
  }

  /** Saving the options and loading them back restores all four option fields, on both builds. */
  method SaveThenLoadOptions(m: SaveManager)
    modifies m
    ensures m.Options() == old(m.Options())
  {
    m.SaveOptions();
    m.LoadOptions();
  }

  /**
   * Saving the scores and loading them back restores all twelve scores on
   * the file build; the browser build reads back whatever the store held.
   */
  method SaveThenLoadScores(m: SaveManager)
    modifies m
    ensures !m.browser ==> m.scores == old(m.scores)
    ensures m.browser ==> m.scores == PrefsScores(old(m.prefs))
  {
    m.SaveScores();
    m.LoadScores();
  }

  /** Deleting the scores survives a reload on the file build only. */
  method DeleteThenLoadScores(m: SaveManager)
    modifies m
    ensures !m.browser ==> m.scores == ZeroScores
    ensures m.browser ==> m.scores == PrefsScores(old(m.prefs))
  {
    m.DeleteScores();
    m.LoadScores();
  }

  /**
   * On the browser build a saved scores record is lost: whatever scores
   * `s` the manager holds when it saves, loading gives back what the store
   * held before the save, and the store itself is not changed.
   */
  method BrowserScoresNotRestored(m: SaveManager, s: ScoreData)
    requires m.browser
    modifies m
    ensures m.scores == PrefsScores(old(m.prefs))
    ensures m.prefs == old(m.prefs)
  {
    m.scores := s;
    m.SaveScores();
    m.LoadScores();
  }
}
