/**
 * The options menu of the racing game's title screen
 * (Test_RacingGame/src/widget/game_options_widget.cpp): four items (the
 * resolution choice, the window mode choice, Apply and Exit) walked with
 * up/down, choices stepped with left/right, and Apply handing the chosen
 * resolution and mode to the main window. Labels keep their text and
 * whether they are drawn in the focus colour or the normal one.
 */
module GameOptions {
  const ResolutionPresets: seq<(int, int)> :=
    [(1024, 768), (1600, 900), (1920, 1080), (2560, 1440), (3840, 2160)]
  const NumResolutions: nat := 5

  /** The resolution choices as `createUI` prints them, one per preset. */
  const ResolutionChoices: seq<string> :=
    ["1024 x 768", "1600 x 900", "1920 x 1080", "2560 x 1440", "3840 x 2160"]
  const ScreenModes: seq<string> := ["Windowed", "Fullscreen"]

  /** The two label colours of the menu. */
  datatype LabelColor = FocusColor | NormalColor

  /** The content label of a choice control shows the choice between arrows. */
  function ChoiceText(choice: string): string
  {
    "<- " + choice + " ->"
  }

  /** `changeChoice`'s new index: the old one moved by delta, kept inside
      [0, count - 1]. */
  function ClampChoice(selected: int, delta: int, count: nat): (r: int)
    requires count > 0
    ensures 0 <= r < count
    ensures 0 <= selected + delta < count ==> r == selected + delta
    ensures selected + delta < 0 ==> r == 0
    ensures selected + delta >= count ==> r == count - 1
  {
    var maxIndex := count - 1;
    var moved := if maxIndex < selected + delta then maxIndex else selected + delta;
    if 0 < moved then moved else 0
  }

  /** The item above `i` on the up key: the one before it, or the last from the first. */
  function PrevItem(i: int, n: nat): (r: int)
    requires 0 <= i < n
    ensures 0 <= r < n
    ensures i > 0 ==> r == i - 1
    ensures i == 0 ==> r == n - 1
  {
    (i - 1 + n) % n
  }

  /** The item below `i` on the down key: the one after it, or the first from the last. */
  function NextItem(i: int, n: nat): (r: int)
    requires 0 <= i < n
    ensures 0 <= r < n
    ensures i < n - 1 ==> r == i + 1
    ensures i == n - 1 ==> r == 0
  {
    (i + 1) % n
  }

  /** Up then down, or down then up, comes back to the same item. */
  lemma UpDownInverse(i: int, n: nat)
    requires 0 <= i < n
    ensures NextItem(PrevItem(i, n), n) == i
    ensures PrevItem(NextItem(i, n), n) == i
  {
  }

  class Label {
    var text: string
    var color: LabelColor

    constructor (text: string)
      ensures this.text == text && color == NormalColor
    {
      this.text := text;
      color := NormalColor;
    }
  }

  /** The window the options apply to. */
  class MainWindow {
    var width: int
    var height: int
    var fullscreen: bool

    constructor (width: int, height: int, fullscreen: bool)
      ensures this.width == width && this.height == height && this.fullscreen == fullscreen
    {
      this.width, this.height, this.fullscreen := width, height, fullscreen;
    }
  }

  /** A header label and a content label showing one of several choices. */
  class ChoiceControl {
    const header: Label
    const content: Label
    var contents: seq<string>
    var selectedContent: int

    ghost predicate Valid()
      reads this, content
    {
      header != content && 0 <= selectedContent < |contents| &&
      content.text == ChoiceText(contents[selectedContent])
    }

    /** The control starts on the last choice. */
    constructor (headerText: string, choices: seq<string>)
      requires |choices| > 0
      ensures Valid() && fresh(header) && fresh(content)
      ensures contents == choices && selectedContent == |choices| - 1
      ensures header.text == headerText && header.color == NormalColor && content.color == NormalColor
    {
      contents := choices;
      selectedContent := |choices| - 1;
      header := new Label(headerText);
      content := new Label(choices[|choices| - 1]);
      new;
      ChangeChoice(0);
    }

    /** `changeChoice`: the selection moves by delta, clamped to the choices,
        and the content label shows the new choice. */
    method ChangeChoice(delta: int)
      requires |contents| > 0 && header != content
      modifies this, content
      ensures Valid() && contents == old(contents)
      ensures selectedContent == ClampChoice(old(selectedContent), delta, |contents|)
      ensures content.color == old(content.color) && header.text == old(header.text) && header.color == old(header.color)
    {
      var maxIndex := |contents| - 1;
      var moved := if maxIndex < selectedContent + delta then maxIndex else selectedContent + delta;
      selectedContent := if 0 < moved then moved else 0;
      content.text := ChoiceText(contents[selectedContent]);
    }
  }

  class GameOptionsWidget {
    const resolutionControl: ChoiceControl
    const fullscreenControl: ChoiceControl
    const applyLabel: Label
    const backToTitleLabel: Label
    const optionItems: seq<Label>
    var selectedItem: int

    /** Every label of the menu: the four items, then the content labels of
        the two choices. */
    ghost function AllLabels(): seq<Label>
    {
      [resolutionControl.header, fullscreenControl.header, applyLabel, backToTitleLabel,
       resolutionControl.content, fullscreenControl.content]
    }

    ghost function LabelSet(): set<object>
    {
      set l | l in AllLabels()
    }

    ghost predicate Valid()
      reads this, resolutionControl, fullscreenControl, resolutionControl.content, fullscreenControl.content
    {
      optionItems == AllLabels()[..4] && 0 <= selectedItem < |optionItems| &&
      (forall i, j :: 0 <= i < j < 6 ==> AllLabels()[i] != AllLabels()[j]) &&
      resolutionControl != fullscreenControl &&
      resolutionControl.Valid() && |resolutionControl.contents| == NumResolutions &&
      fullscreenControl.Valid() && |fullscreenControl.contents| == |ScreenModes|
    }

    /** The colour `updateUI` gives item k. */
    ghost function ColorFor(k: int): LabelColor
      reads this
    {
      if k == selectedItem then FocusColor else NormalColor
    }

    /** What `updateUI` leaves: the selected item in the focus colour, with
        the content label of the choice it heads; every other label normal. */
    ghost predicate Highlighted()
      reads this, LabelSet()
    {
      (forall k :: 0 <= k < 4 ==> AllLabels()[k].color == ColorFor(k)) &&
      resolutionControl.content.color == ColorFor(0) &&
      fullscreenControl.content.color == ColorFor(1)
    }

    /** `createUI`: both choices start on their last entry, the first item is
        selected and highlighted. */
    constructor ()
      ensures Valid() && Highlighted() && selectedItem == 0
      ensures resolutionControl.contents == ResolutionChoices && resolutionControl.selectedContent == NumResolutions - 1
      ensures fullscreenControl.contents == ScreenModes && fullscreenControl.selectedContent == 1
    {
      var rc := new ChoiceControl("Resolution", ResolutionChoices);
      var fc := new ChoiceControl("Window Mode", ScreenModes);
      resolutionControl, fullscreenControl := rc, fc;
      var exitLabel := new Label("Exit");
      var apply := new Label("Apply");
      backToTitleLabel := exitLabel;
      applyLabel := apply;
      optionItems := [rc.header, fc.header, apply, exitLabel];
      selectedItem := 0;
      new;
      UpdateUI();
    }

    /** Item i is the i-th label and no other one; the headers of the two
        choices are items 0 and 1. */
    lemma ItemFacts(i: int)
      requires Valid() && 0 <= i < 4
      ensures optionItems[i] == AllLabels()[i]
      ensures forall k :: 0 <= k < 6 && k != i ==> AllLabels()[k] != optionItems[i]
      ensures forall k :: 0 <= k < 4 ==>
                AllLabels()[k] != resolutionControl.content && AllLabels()[k] != fullscreenControl.content
      ensures resolutionControl.content != fullscreenControl.content
      ensures optionItems[i] == resolutionControl.header <==> i == 0
      ensures optionItems[i] == fullscreenControl.header <==> i == 1
    {
      assert AllLabels()[0] == resolutionControl.header && AllLabels()[1] == fullscreenControl.header;
      assert AllLabels()[4] == resolutionControl.content && AllLabels()[5] == fullscreenControl.content;
    }

    /** `updateUI`: recolours the items and the content labels for the
        current selection; texts, choices and the selection stay. */
    method UpdateUI()
      requires Valid()
      modifies LabelSet()
      ensures Valid() && Highlighted()
      ensures forall k :: 0 <= k < 6 ==> AllLabels()[k].text == old(AllLabels()[k].text)
    {
      var rc, fc := resolutionControl, fullscreenControl;
      for i := 0 to |optionItems|
        invariant Valid()
        invariant forall k :: 0 <= k < 6 ==> AllLabels()[k].text == old(AllLabels()[k].text)
        invariant forall k :: 0 <= k < i ==> AllLabels()[k].color == ColorFor(k)
        invariant 0 < i ==> rc.content.color == ColorFor(0)
        invariant 1 < i ==> fc.content.color == ColorFor(1)
      {
        var color := if i == selectedItem then FocusColor else NormalColor;
        var item := optionItems[i];
        ItemFacts(i);
        item.color := color;
        if item == rc.header {
          rc.content.color := color;
        }
        if item == fc.header {
          fc.content.color := color;
        }
      }
    }

    /** The up key: the previous item, wrapping from the first to the last. */
    method Up()
      requires Valid()
      modifies this, LabelSet()
      ensures Valid() && Highlighted() && selectedItem == PrevItem(old(selectedItem), |optionItems|)
      ensures resolutionControl.selectedContent == old(resolutionControl.selectedContent)
      ensures fullscreenControl.selectedContent == old(fullscreenControl.selectedContent)
    {
      selectedItem := (selectedItem - 1 + |optionItems|) % |optionItems|;
      UpdateUI();
    }

    /** The down key: the next item, wrapping from the last to the first. */
    method Down()
      requires Valid()
      modifies this, LabelSet()
      ensures Valid() && Highlighted() && selectedItem == NextItem(old(selectedItem), |optionItems|)
      ensures resolutionControl.selectedContent == old(resolutionControl.selectedContent)
      ensures fullscreenControl.selectedContent == old(fullscreenControl.selectedContent)
    {
      selectedItem := (selectedItem + 1) % |optionItems|;
      UpdateUI();
    }

    /** The left (delta -1) and right (delta +1) keys: only the control
        whose header is the selected item changes its choice. */
    method StepChoice(delta: int)
      requires Valid() && Highlighted()
      modifies resolutionControl, fullscreenControl, LabelSet()
      ensures Valid() && Highlighted()
      ensures resolutionControl.selectedContent ==
                if selectedItem == 0 then ClampChoice(old(resolutionControl.selectedContent), delta, NumResolutions)
                else old(resolutionControl.selectedContent)
      ensures fullscreenControl.selectedContent ==
                if selectedItem == 1 then ClampChoice(old(fullscreenControl.selectedContent), delta, |ScreenModes|)
                else old(fullscreenControl.selectedContent)
    {
      HandleChoiceControl(resolutionControl, delta);
      HandleChoiceControl(fullscreenControl, delta);
    }

    /** One control's share of a left or right key press. */
    method HandleChoiceControl(choice: ChoiceControl, delta: int)
      requires Valid() && Highlighted()
      requires choice == resolutionControl || choice == fullscreenControl
      modifies choice, LabelSet()
      ensures Valid() && Highlighted()
      ensures optionItems[selectedItem] == choice.header ==>
                choice.selectedContent == ClampChoice(old(choice.selectedContent), delta, |choice.contents|)
      ensures optionItems[selectedItem] != choice.header ==> choice.selectedContent == old(choice.selectedContent)
      ensures choice.contents == old(choice.contents)
      ensures resolutionControl != choice ==> unchanged(resolutionControl)
      ensures fullscreenControl != choice ==> unchanged(fullscreenControl)
    {
      if optionItems[selectedItem] == choice.header {
        choice.ChangeChoice(delta);
        UpdateUI();
      }
    }

    /** The window shows the chosen preset and the chosen mode. */
    ghost predicate AppliedTo(window: MainWindow)
      reads this, resolutionControl, fullscreenControl, window
    {
      0 <= resolutionControl.selectedContent < NumResolutions &&
      (window.width, window.height) == ResolutionPresets[resolutionControl.selectedContent] &&
      (window.fullscreen <==> fullscreenControl.selectedContent != 0)
    }

    /** The confirm key: Apply applies the options, Exit asks the title
        world to close the menu; other items do nothing. */
    method Confirm(window: MainWindow) returns (closeRequested: bool)
      requires Valid()
      modifies window
      ensures closeRequested <==> selectedItem == 3
      ensures selectedItem == 2 ==> AppliedTo(window)
      ensures selectedItem != 2 ==> unchanged(window)
    {
      assert optionItems[2] == applyLabel && optionItems[3] == backToTitleLabel;
      closeRequested := false;
      if optionItems[selectedItem] == applyLabel {
        ApplyCurrentOptions(window);
      } else if optionItems[selectedItem] == backToTitleLabel {
        closeRequested := true;
      }
    }

    /** `applyCurrentOptions`: the chosen resolution is always one of the
        presets, so its CHECK holds; the window takes that size and goes
        fullscreen unless the first mode (Windowed) is chosen. */
    method ApplyCurrentOptions(window: MainWindow)
      requires Valid()
      modifies window
      ensures AppliedTo(window)
    {
      var selectedResolution := resolutionControl.selectedContent;
      assert 0 <= selectedResolution < NumResolutions;
      var preset := ResolutionPresets[selectedResolution];
      window.width, window.height := preset.0, preset.1;
      var fullscreenChoice := fullscreenControl.selectedContent;
      window.fullscreen := fullscreenChoice != 0;
    }
  }
}
