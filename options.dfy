/** Options: the table-wide settings, and the obsolete aliases that read and write
    two of them. */
module Options {
  import opened Wrappers
  import opened Cells

  /** The values of an Options object at one moment. */
  datatype OptionsState = OptionsState(
    captionCellAlignment: CellAlignment,
    titleCellAlignment: CellAlignment,
    title: Option<string>,
    prefix: Option<string>,
    displayCaptions: bool)

  /** The property initialisers of Options. */
  const Defaults: OptionsState := OptionsState(Center, Center, None, None, true)

  class Options {
    var captionCellAlignment: CellAlignment
    var titleCellAlignment: CellAlignment
    var title: Option<string>
    var prefix: Option<string>
    var displayCaptions: bool

    function Snapshot(): OptionsState
      reads this
    {
      OptionsState(captionCellAlignment, titleCellAlignment, title, prefix, displayCaptions)
    }

    constructor ()
      ensures Snapshot() == Defaults
    {
      captionCellAlignment := Center;
      titleCellAlignment := Center;
      title := None;
      prefix := None;
      displayCaptions := true;
    }

    /** The obsolete HeaderCellAlignment getter reads CaptionCellAlignment. */
    function HeaderCellAlignment(): CellAlignment
      reads this
    {
      captionCellAlignment
    }

    /** The obsolete HeaderCellAlignment setter writes CaptionCellAlignment and
        nothing else. */
    method SetHeaderCellAlignment(value: CellAlignment)
      modifies this
      ensures HeaderCellAlignment() == value
      ensures Snapshot() == old(Snapshot()).(captionCellAlignment := value)
    {
      captionCellAlignment := value;
    }

    /** The obsolete DisplayHeader getter reads DisplayCaptions. */
    function DisplayHeader(): bool
      reads this
    {
      displayCaptions
    }

    /** The obsolete DisplayHeader setter writes DisplayCaptions and nothing else. */
    method SetDisplayHeader(value: bool)
      modifies this
      ensures DisplayHeader() == value
      ensures Snapshot() == old(Snapshot()).(displayCaptions := value)
    {
      displayCaptions := value;
    }

    method SetCaptionCellAlignment(value: CellAlignment)
      modifies this
      ensures Snapshot() == old(Snapshot()).(captionCellAlignment := value)
    {
      captionCellAlignment := value;
    }

    method SetTitleCellAlignment(value: CellAlignment)
      modifies this
      ensures Snapshot() == old(Snapshot()).(titleCellAlignment := value)
    {
      titleCellAlignment := value;
    }

    method SetTitle(value: Option<string>)
      modifies this
      ensures Snapshot() == old(Snapshot()).(title := value)
    {
      title := value;
    }

    method SetPrefix(value: Option<string>)
      modifies this
      ensures Snapshot() == old(Snapshot()).(prefix := value)
    {
      prefix := value;
    }

    method SetDisplayCaptions(value: bool)
      modifies this
      ensures Snapshot() == old(Snapshot()).(displayCaptions := value)
    {
      displayCaptions := value;
    }
  }
}
