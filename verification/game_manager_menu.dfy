/**
 * The main menu: which panel is open, which minigame is selected, the
 * credits pages, the volume control and the fullscreen toggle.
 *
 * Each group of panels is an array of "active" flags, one per panel
 * object of the scene.  Scene loading, audio output and external links are
 * not part of this model.
 */
module MainMenu {
  import opened Wrappers
  import opened Saving

  /** The text of one decimal digit. */
  function Digit(d: nat): char
    requires d < 10
  {
    "0123456789"[d]
  }

  /** The decimal text of a natural number. */
  function Digits(n: nat): (s: string)
    ensures |s| > 0
    decreases n
  {
    if n < 10 then [Digit(n)] else Digits(n / 10) + [Digit(n % 10)]
  }

  /** The decimal text of an integer, as `ToString()` writes it. */
  function IntToString(n: int): string
  {
    if n < 0 then "-" + Digits(-n) else Digits(n)
  }

  /** The volume label shown when the volume is off. */
  const Off := "OFF"

  /** The volume label for a volume of `n` percent: never the "OFF" label. */
  function Percent(n: int): (s: string)
    ensures |s| > 0 && s[|s| - 1] == '%'
    ensures s != Off
  {
    IntToString(n) + "%"
  }

  /** One step past either end of [0, count) wraps to the other end. */
  lemma WrapStep(x: int, count: int)
    requires -1 <= x <= count && count > 0
    ensures x % count == if x < 0 then count - 1 else if x == count then 0 else x
  {
  }

  /** The game selected after an arrow press among `count` games, wrapping at both ends. */
  function ArrowStep(activeGame: int, count: int, leftArrow: bool): (r: int)
    requires 0 <= activeGame < count
    ensures 0 <= r < count
    ensures leftArrow ==> r == (activeGame - 1) % count
    ensures !leftArrow ==> r == (activeGame + 1) % count
  {
    WrapStep(activeGame - 1, count);
    WrapStep(activeGame + 1, count);
    if leftArrow then
      if activeGame - 1 < 0 then count - 1 else activeGame - 1
    else
      if activeGame + 1 >= count then 0 else activeGame + 1
  }

  /** A left press and a right press undo each other, in either order. */
  lemma ArrowsCancel(activeGame: int, count: int)
    requires 0 <= activeGame < count
    ensures ArrowStep(ArrowStep(activeGame, count, true), count, false) == activeGame
    ensures ArrowStep(ArrowStep(activeGame, count, false), count, true) == activeGame
  {
  }

  /** The credits page shown after pressing the credits arrow: the three pages in a cycle. */
  function CreditsStep(activeCredits: int): (r: int)
    requires 0 <= activeCredits < 3
    ensures 0 <= r < 3
    ensures r == (activeCredits + 1) % 3
    ensures r == 0 <==> activeCredits == 2
  {
    var next := activeCredits + 1;
    if next == 3 then 0 else next
  }

  /** What the volume control shows: the volume, its label and the two arrows. */
  datatype VolumeView = VolumeView(volume: int, text: string, leftArrow: bool, rightArrow: bool)

  /** The volume control after one arrow press. */
  function VolumeStep(v: VolumeView, leftArrow: bool): (r: VolumeView)
    // the volume moves by exactly one step of 5
    ensures r.volume == if leftArrow then v.volume - 5 else v.volume + 5
    // a left press shows "OFF" exactly when it leaves the volume at 0 or below
    ensures leftArrow ==> (r.text == Off <==> r.volume <= 0)
    // otherwise the label is the percentage
    ensures r.text != Off ==> r.text == Percent(r.volume)
    ensures !leftArrow ==> r.text == Percent(r.volume)
    // a left press re-shows the right arrow and hides the left one at 0
    ensures leftArrow ==> r.rightArrow && r.leftArrow == (v.leftArrow && r.volume > 0)
    // a right press re-shows the left arrow and hides the right one at 100
    ensures !leftArrow ==> r.leftArrow && r.rightArrow == (v.rightArrow && r.volume < 100)
  {
    if leftArrow then
      var volume := v.volume - 5;
      if volume > 0 then VolumeView(volume, Percent(volume), v.leftArrow, true)
      else VolumeView(volume, Off, false, true)
    else
      var volume := v.volume + 5;
      VolumeView(volume, Percent(volume), true, v.rightArrow && !(volume >= 100))
  }

  /** The volume control after showing the saved volume when the menu starts. */
  function CheckedVolume(v: VolumeView, saved: int): (r: VolumeView)
    ensures r.volume == saved
    ensures r.text == if saved > 0 then Percent(saved) else Off
    ensures r.leftArrow == (v.leftArrow && saved > 0)
    ensures r.rightArrow == (v.rightArrow && !(0 < saved && saved >= 100))
  {
    if saved > 0 then
      VolumeView(saved, Percent(saved), v.leftArrow, if saved >= 100 then false else v.rightArrow)
    else
      VolumeView(saved, Off, false, v.rightArrow)
  }

  /**
   * The volume control is consistent: a multiple of 5 between 0 and 100,
   * each arrow shown exactly when pressing it keeps the volume in range,
   * and the label telling the volume.
   */
  ghost predicate Consistent(v: VolumeView)
  {
    && 0 <= v.volume <= 100
    && v.volume % 5 == 0
    && v.leftArrow == (v.volume > 0)
    && v.rightArrow == (v.volume < 100)
    && v.text == if v.volume > 0 then Percent(v.volume) else Off
  }

  /** Starting from both arrows shown, a saved volume in range gives a consistent control. */
  lemma CheckedVolumeConsistent(v: VolumeView, saved: int)
    requires v.leftArrow && v.rightArrow
    requires 0 <= saved <= 100 && saved % 5 == 0
    ensures Consistent(CheckedVolume(v, saved))
  {
  }

  /** A step of 5 from a multiple of 5 between 0 and 100 stays on the grid. */
  lemma FiveStep(n: int)
    requires 0 <= n <= 100 && n % 5 == 0
    ensures n > 0 ==> n >= 5 && (n - 5) % 5 == 0
    ensures n < 100 ==> n <= 95 && (n + 5) % 5 == 0
  {
  }

  /** Pressing an arrow that is shown keeps the control consistent. */
  lemma VolumeStepConsistent(v: VolumeView, leftArrow: bool)
    requires Consistent(v)
    requires if leftArrow then v.leftArrow else v.rightArrow
    ensures Consistent(VolumeStep(v, leftArrow))
  {
    FiveStep(v.volume);
  }

  /** The icon of the resolution button: it shows the mode a press switches to. */
  datatype Sprite = SpriteWindowed | SpriteFullscreen

  /** The exit button and the resolution button as shown. */
  datatype ResolutionView = ResolutionView(exitButton: bool, icon: bool, sprite: Sprite)

  /** The resolution controls after they are brought up to date with the fullscreen flag. */
  function ResolutionValues(r: ResolutionView, browser: bool, fullscreen: bool): (r': ResolutionView)
    // the browser build hides both the exit button and the resolution button
    ensures browser ==> !r'.exitButton && !r'.icon && r'.sprite == r.sprite
    // elsewhere the exit button is shown exactly in fullscreen mode
    ensures !browser ==> r'.exitButton == fullscreen && r'.icon == r.icon
    ensures !browser ==> (r'.sprite == SpriteWindowed <==> fullscreen)
  {
    if browser then ResolutionView(false, false, r.sprite)
    else if !fullscreen then ResolutionView(false, r.icon, SpriteFullscreen)
    else ResolutionView(true, r.icon, SpriteWindowed)
  }

  /** The menu component. */
  class GameManagerMenu {
    /** The save manager shared by all scenes. */
    const save: SaveManager
    /** The active flags of the menu panels. */
    const panels: array<bool>
    /** The active flags of the game-name panels. */
    const games: array<bool>
    /** The active flags of the credits pages. */
    const creditsPanels: array<bool>

    /** The selected game. */
    var activeGame: int
    var volume: int
    var volumeText: string
    var volumeLeftArrow: bool
    var volumeRightArrow: bool
    /** The credits page shown. */
    var activeCredits: int
    var buttonExit: bool
    var imageResolution: bool
    var spriteResolution: Sprite

    ghost predicate Valid()
      reads this
    {
      && panels != games && panels != creditsPanels && games != creditsPanels
      && panels.Length > 0 && games.Length > 0 && creditsPanels.Length >= 3
      && 0 <= activeGame < games.Length
      && 0 <= activeCredits < 3
    }

    /** The volume control as shown. */
    function VolumeState(): VolumeView
      reads this
    {
      VolumeView(volume, volumeText, volumeLeftArrow, volumeRightArrow)
    }

    /** The resolution controls as shown. */
    function ResolutionState(): ResolutionView
      reads this
    {
      ResolutionView(buttonExit, imageResolution, spriteResolution)
    }

    /** The menu as the scene sets it up: every button shown, the first game and credits page selected. */
    constructor (save: SaveManager, panels: array<bool>, games: array<bool>, creditsPanels: array<bool>)
      requires panels != games && panels != creditsPanels && games != creditsPanels
      requires panels.Length > 0 && games.Length > 0 && creditsPanels.Length >= 3
      ensures Valid()
      ensures this.save == save && this.panels == panels && this.games == games
      ensures this.creditsPanels == creditsPanels
      ensures activeGame == 0 && activeCredits == 0 && volume == 0
      ensures volumeLeftArrow && volumeRightArrow && buttonExit && imageResolution
    {
      this.save, this.panels, this.games, this.creditsPanels := save, panels, games, creditsPanels;
      activeGame, activeCredits, volume := 0, 0, 0;
      volumeText := "";
      volumeLeftArrow, volumeRightArrow := true, true;
      buttonExit, imageResolution, spriteResolution := true, true, SpriteFullscreen;
    }

    /**
     * Shows the saved volume and the resolution controls, and opens the
     * language panel (panel 5) when the language has not been chosen yet.
     */
    method Start()
      requires Valid() && panels.Length > 5
      modifies this`volume, this`volumeText, this`volumeLeftArrow, this`volumeRightArrow
      modifies this`buttonExit, this`imageResolution, this`spriteResolution, panels
      ensures Valid()
      ensures VolumeState() == CheckedVolume(old(VolumeState()), save.gameVolume)
      ensures ResolutionState() == ResolutionValues(old(ResolutionState()), save.browser, save.fullscreen)
      ensures !save.firstTimeLanguage ==> forall i :: 0 <= i < panels.Length ==> panels[i] == (i == 5)
      ensures save.firstTimeLanguage ==> panels[..] == old(panels[..])
    {
      CheckVolume();
      UpdateResolutionValues();
      if !save.firstTimeLanguage {
        OpenPanel(5);
      }
    }

    /** Opens panel `panel` and closes every other menu panel. */
    method OpenPanel(panel: int)
      requires 0 <= panel < panels.Length
      modifies panels
      ensures forall i :: 0 <= i < panels.Length ==> panels[i] == (i == panel)
    {
      for i := 0 to panels.Length
        invariant forall j :: 0 <= j < i ==> !panels[j]
      {
        panels[i] := false;
      }
      panels[panel] := true;
    }

    /** Selects the previous or the next game and shows only its name panel. */
    method ArrowGames(leftArrow: bool)
      requires Valid()
      modifies this`activeGame, games
      ensures Valid()
      ensures activeGame == ArrowStep(old(activeGame), games.Length, leftArrow)
      ensures forall i :: 0 <= i < games.Length ==> games[i] == (i == activeGame)
    {
      if leftArrow {
        activeGame := activeGame - 1;
        if activeGame < 0 {
          activeGame := games.Length - 1;
        }
      } else {
        activeGame := activeGame + 1;
        if activeGame >= games.Length {
          activeGame := 0;
        }
      }
      for i := 0 to games.Length
        modifies games
        invariant forall j :: 0 <= j < i ==> !games[j]
      {
        games[i] := false;
      }
      games[activeGame] := true;
    }

    /** Shows the saved volume: its label, and hides an arrow at either end of the range. */
    method CheckVolume()
      modifies this`volume, this`volumeText, this`volumeLeftArrow, this`volumeRightArrow
      ensures VolumeState() == CheckedVolume(old(VolumeState()), save.gameVolume)
    {
      LoadOptions();
      if volume > 0 {
        volumeText := Percent(volume);
        if volume >= 100 {
          volumeRightArrow := false;
        }
      } else {
        volumeLeftArrow := false;
        volumeText := Off;
      }
    }

    /** Lowers (left arrow) or raises (right arrow) the volume by 5. */
    method VolumeManager(leftArrow: bool)
      modifies this`volume, this`volumeText, this`volumeLeftArrow, this`volumeRightArrow
      ensures VolumeState() == VolumeStep(old(VolumeState()), leftArrow)
    {
      if leftArrow {
        volume := volume - 5;
        volumeRightArrow := true;
        if volume > 0 {
          volumeText := Percent(volume);
        } else {
          volumeLeftArrow := false;
          volumeText := Off;
        }
      } else {
        volume := volume + 5;
        volumeLeftArrow := true;
        volumeText := Percent(volume);
        if volume >= 100 {
          volumeRightArrow := false;
        }
      }
    }

    /** Takes the volume from the save manager. */
    method LoadOptions()
      modifies this`volume
      ensures volume == save.gameVolume
    {
      volume := save.gameVolume;
    }

    /** Hands the volume to the save manager and has it save the options. */
    method SaveOptions()
      modifies save`gameVolume, save`optionsFile, save`prefs
      ensures save.Options() == old(save.Options()).(gameVolume := volume)
      ensures save.browser ==> save.prefs == WithOptions(old(save.prefs), save.Options())
      ensures save.browser ==> save.optionsFile == old(save.optionsFile)
      ensures !save.browser ==> save.optionsFile == Some(save.Options()) && save.prefs == old(save.prefs)
    {
      save.gameVolume := volume;
      save.SaveOptions();
    }

    /** Deletes every saved score. */
    method ClearHighScores()
      modifies save`scores, save`scoresFile
      ensures save.scores == ZeroScores
      ensures save.browser ==> save.scoresFile == old(save.scoresFile)
      ensures !save.browser ==> save.scoresFile == Some(ZeroScores)
    {
      save.DeleteScores();
    }

    /**
     * Shows the next credits page; after the last page the first page is
     * selected again and the main panel (panel 0) is opened.
     */
    method ArrowCredits()
      requires Valid()
      modifies this`activeCredits, creditsPanels, panels
      ensures Valid()
      ensures activeCredits == CreditsStep(old(activeCredits))
      ensures forall i :: 0 <= i < creditsPanels.Length ==> creditsPanels[i] == (i == activeCredits)
      ensures old(activeCredits) == 2 ==> forall i :: 0 <= i < panels.Length ==> panels[i] == (i == 0)
      ensures old(activeCredits) != 2 ==> panels[..] == old(panels[..])
    {
      activeCredits := activeCredits + 1;
      for i := 0 to creditsPanels.Length
        modifies creditsPanels
        invariant forall j :: 0 <= j < i ==> !creditsPanels[j]
      {
        creditsPanels[i] := false;
      }
      if activeCredits == 3 {
        activeCredits := 0;
        OpenPanel(0);
      }
      creditsPanels[activeCredits] := true;
    }

    /** Switches between fullscreen and windowed mode and saves the options. */
    method ChangeResolution()
      modifies this`buttonExit, this`imageResolution, this`spriteResolution
      modifies save`fullscreen, save`gameVolume, save`optionsFile, save`prefs
      ensures save.Options() == old(save.Options()).(fullscreen := !old(save.fullscreen), gameVolume := volume)
      ensures ResolutionState() == ResolutionValues(old(ResolutionState()), save.browser, save.fullscreen)
      ensures save.browser ==> save.prefs == WithOptions(old(save.prefs), save.Options())
      ensures save.browser ==> save.optionsFile == old(save.optionsFile)
      ensures !save.browser ==> save.optionsFile == Some(save.Options()) && save.prefs == old(save.prefs)
    {
      if !save.fullscreen {
        save.fullscreen := true;
      } else {
        save.fullscreen := false;
      }
      UpdateResolutionValues();
      SaveOptions();
    }

    /** Brings the exit button and the resolution button up to date with the fullscreen flag. */
    method UpdateResolutionValues()
      modifies this`buttonExit, this`imageResolution, this`spriteResolution
      ensures ResolutionState() == ResolutionValues(old(ResolutionState()), save.browser, save.fullscreen)
    {
      if save.browser {
        buttonExit := false;
        imageResolution := false;
        return;
      }
      if !save.fullscreen {
        spriteResolution := SpriteFullscreen;
        buttonExit := false;
      } else {
        spriteResolution := SpriteWindowed;
        buttonExit := true;
      }
    }
  }
}
