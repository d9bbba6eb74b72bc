/** The add/edit form for one cell: its fields, the edit-mode prefill, the
    type switch, the per-slot edits and the validation run on submit. */
module AddCellModal {
  import opened Types
  import Text

  /** The number of slots a quad-audio form shows. */
  const SlotCount: nat := 4

  /** `Array(n).fill(x)`. */
  function Repeat<T>(x: T, n: nat): (r: seq<T>)
    ensures |r| == n && forall i :: 0 <= i < n ==> r[i] == x
  {
    seq(n, _ => x)
  }

  /** `arr[index] = value` on a copy: an index inside the array replaces that
      element, the index just past its end appends. */
  function Put<T>(s: seq<T>, index: nat, value: T): (r: seq<T>)
    requires index <= |s|
    ensures |r| == if index < |s| then |s| else |s| + 1
    ensures r[index] == value
    ensures forall i :: 0 <= i < |s| && i != index ==> r[i] == s[i]
  {
    if index < |s| then s[index := value] else s + [value]
  }

  /** The length of an array padded to the slot count. */
  function PaddedLength(n: nat): nat
  {
    if n < SlotCount then SlotCount else n
  }

  /** `[...s]` followed by `while (padded.length < 4) padded.push(fill)`. */
  method PadToSlots<T>(s: seq<T>, fill: T) returns (padded: seq<T>)
    ensures |padded| == PaddedLength(|s|) >= SlotCount
    ensures padded[..|s|] == s
    ensures forall i :: |s| <= i < |padded| ==> padded[i] == fill
  {
    padded := s;
    while |padded| < SlotCount
      invariant |s| <= |padded| <= PaddedLength(|s|)
      invariant padded[..|s|] == s
      invariant forall i :: |s| <= i < |padded| ==> padded[i] == fill
      decreases SlotCount - |padded|
    {
      padded := padded + [fill];
    }
  }

  /** An absent stream name of a loaded item enters the form as the empty
      string, which every reader of the name treats alike. */
  function NamesOrEmpty(names: seq<Option<string>>): (r: seq<string>)
    ensures |r| == |names|
    ensures forall i :: 0 <= i < |names| ==> r[i] == if names[i].Some? then names[i].value else ""
  {
    seq(|names|, i requires 0 <= i < |names| => if names[i].Some? then names[i].value else "")
  }

  /** An absent background type enters the form as Image, the type the
      quad-audio cell shows for it. */
  function TypesOrImage(types: seq<Option<AudioBackgroundType>>): (r: seq<AudioBackgroundType>)
    ensures |r| == |types|
    ensures forall i :: 0 <= i < |types| ==> r[i] == if types[i].Some? then types[i].value else AudioBackgroundType.Image
  {
    seq(|types|, i requires 0 <= i < |types| =>
      if types[i].Some? then types[i].value else AudioBackgroundType.Image)
  }

  /** `!x?.trim()`: the entry is missing or blank. */
  predicate MissingOrBlank(s: seq<string>, i: nat)
  {
    i >= |s| || Text.IsBlank(s[i])
  }

  /** `urls.filter(url => url && url.trim() !== '').length`. */
  function FilledCount(urls: seq<string>): nat
  {
    if urls == [] then 0
    else (if Text.IsBlank(urls[0]) then 0 else 1) + FilledCount(urls[1..])
  }

  /** The count lies between 0 and the number of URLs, and is positive
      exactly when some URL is not blank. */
  lemma {:induction false} FilledCountRange(urls: seq<string>)
    ensures FilledCount(urls) <= |urls|
    ensures FilledCount(urls) > 0 <==> exists i :: 0 <= i < |urls| && !Text.IsBlank(urls[i])
  {
    if urls != [] {
      FilledCountRange(urls[1..]);
      if FilledCount(urls[1..]) > 0 {
        var i :| 0 <= i < |urls[1..]| && !Text.IsBlank(urls[1..][i]);
        assert !Text.IsBlank(urls[i + 1]);
      }
      if exists i :: 0 <= i < |urls| && !Text.IsBlank(urls[i]) {
        var i :| 0 <= i < |urls| && !Text.IsBlank(urls[i]);
        if i > 0 {
          assert urls[1..][i - 1] == urls[i];
        }
      }
    }
  }

  /** The outcome of validating the form on submit. */
  datatype Verdict = Accepted | Rejected(message: string)

  /** The checks of `handleSubmit`, in their order. */
  function Validate(cellType: CellType, urls: seq<string>, names: seq<string>,
                    imageFiles: seq<Option<File>>, isEditMode: bool): Verdict
  {
    if cellType == CellType.Video && MissingOrBlank(names, 0) then Rejected("Stream Name is required.")
    else if cellType == CellType.Image && MissingOrBlank(names, 0) then Rejected("Cell Name is required.")
    else if cellType == CellType.Image && !isEditMode && Slot(imageFiles, 0).None? then
      Rejected("An image or GIF file is required.")
    else if cellType == CellType.Video && FilledCount(urls) != 1 then
      Rejected("Video cell requires exactly one HLS URL.")
    else if cellType == CellType.QuadAudio && FilledCount(urls) == 0 then
      Rejected("Quad Audio cell requires at least one HLS URL.")
    else Accepted
  }

  /** What an accepted form guarantees: a video cell has a non-blank name and
      exactly one non-blank URL, an image cell a non-blank name and, when it is
      new, a picture, a quad-audio cell at least one non-blank URL. */
  lemma {:induction false} AcceptedForm(cellType: CellType, urls: seq<string>, names: seq<string>,
                                        imageFiles: seq<Option<File>>, isEditMode: bool)
    requires Validate(cellType, urls, names, imageFiles, isEditMode) == Accepted
    ensures cellType != CellType.QuadAudio ==> |names| >= 1 && !Text.IsBlank(names[0])
    ensures cellType == CellType.Video ==> FilledCount(urls) == 1
    ensures cellType == CellType.Image && !isEditMode ==> |imageFiles| >= 1 && imageFiles[0].Some?
    ensures cellType != CellType.Image ==> exists i :: 0 <= i < |urls| && !Text.IsBlank(urls[i])
  {
    FilledCountRange(urls);
  }

  /** A rejected form names the first check it fails: the name and picture
      checks, each of which applies only to its own cell type. */
  lemma RejectedMessages(cellType: CellType, urls: seq<string>, names: seq<string>,
                         imageFiles: seq<Option<File>>, isEditMode: bool)
    ensures var v := Validate(cellType, urls, names, imageFiles, isEditMode);
      && (v == Rejected("Stream Name is required.") <==> cellType == CellType.Video && MissingOrBlank(names, 0))
      && (v == Rejected("Cell Name is required.") <==> cellType == CellType.Image && MissingOrBlank(names, 0))
      && (v == Rejected("An image or GIF file is required.") <==>
            cellType == CellType.Image && !MissingOrBlank(names, 0) && !isEditMode && Slot(imageFiles, 0).None?)
  {
  }

  /** The URL checks come last: a video cell with a name is rejected when it
      has other than exactly one non-blank URL, a quad-audio cell when every
      URL is blank. */
  lemma RejectedUrlMessages(cellType: CellType, urls: seq<string>, names: seq<string>,
                            imageFiles: seq<Option<File>>, isEditMode: bool)
    ensures var v := Validate(cellType, urls, names, imageFiles, isEditMode);
      && (v == Rejected("Video cell requires exactly one HLS URL.") <==>
            cellType == CellType.Video && !MissingOrBlank(names, 0) && FilledCount(urls) != 1)
      && (v == Rejected("Quad Audio cell requires at least one HLS URL.") <==>
            cellType == CellType.QuadAudio && forall i :: 0 <= i < |urls| ==> Text.IsBlank(urls[i]))
  {
    FilledCountRange(urls);
  }

  /** The data the form hands to its save callback. */
  datatype Submission = Submission(cellType: CellType, urls: seq<string>, names: seq<string>,
                                   imageFiles: seq<Option<File>>, titleImageFiles: seq<Option<File>>,
                                   backgroundTypes: seq<AudioBackgroundType>,
                                   backgroundVideoFiles: seq<Option<File>>)

  /** The form's state. Whether it edits an existing cell is fixed when it
      opens; the type select is disabled while editing. */
  class CellForm {
    const isEditMode: bool
    var cellType: CellType
    var urls: seq<string>
    var streamNames: seq<string>
    var imageFiles: seq<Option<File>>
    var titleImageFiles: seq<Option<File>>
    var backgroundTypes: seq<AudioBackgroundType>
    var backgroundVideoFiles: seq<Option<File>>
    var error: string

    /** Every form has a first name field, and every form but a video one a
        first URL field. */
    predicate Valid()
      reads this
    {
      |streamNames| >= 1 && (cellType != CellType.Video ==> |urls| >= 1)
    }

    /** The initial state, then the prefill effect for `cellToEdit`. */
    constructor (cellToEdit: Option<Cell>)
      requires cellToEdit.Some? ==> WellTyped(cellToEdit.value)
      ensures isEditMode == cellToEdit.Some?
      ensures Valid() && error == ""
      ensures imageFiles == titleImageFiles == backgroundVideoFiles == Repeat(None, SlotCount)
      ensures cellToEdit.None? ==>
                cellType == CellType.Video && urls == [""] && streamNames == [""] &&
                backgroundTypes == Repeat(AudioBackgroundType.Image, SlotCount)
      ensures cellToEdit.Some? ==> cellType == cellToEdit.value.cellType
      ensures cellToEdit.Some? && cellToEdit.value.item.VideoItem? ==>
                urls == cellToEdit.value.item.urls && streamNames == [cellToEdit.value.item.name] &&
                backgroundTypes == Repeat(AudioBackgroundType.Image, SlotCount)
      ensures cellToEdit.Some? && cellToEdit.value.item.ImageItem? ==>
                urls == [""] && streamNames == [cellToEdit.value.item.name] &&
                backgroundTypes == Repeat(AudioBackgroundType.Image, SlotCount)
      ensures cellToEdit.Some? && cellToEdit.value.item.QuadAudioItem? ==>
                var item := cellToEdit.value.item;
                && |urls| == PaddedLength(|item.urls|) && urls[..|item.urls|] == item.urls
                && (forall i :: |item.urls| <= i < |urls| ==> urls[i] == "")
                && |streamNames| == PaddedLength(|item.streamNames|) && streamNames[..|item.streamNames|] == NamesOrEmpty(item.streamNames)
                && (forall i :: |item.streamNames| <= i < |streamNames| ==> streamNames[i] == "")
                && |backgroundTypes| == PaddedLength(|item.backgroundTypes|)
                && backgroundTypes[..|item.backgroundTypes|] == TypesOrImage(item.backgroundTypes)
                && (forall i :: |item.backgroundTypes| <= i < |backgroundTypes| ==>
                                  backgroundTypes[i] == AudioBackgroundType.Image)
    {
      isEditMode := cellToEdit.Some?;
      cellType := CellType.Video;
      urls := Repeat("", SlotCount);
      streamNames := Repeat("", SlotCount);
      imageFiles := Repeat(None, SlotCount);
      titleImageFiles := Repeat(None, SlotCount);
      backgroundTypes := Repeat(AudioBackgroundType.Image, SlotCount);
      backgroundVideoFiles := Repeat(None, SlotCount);
      error := "";
      new;
      Load(cellToEdit);
    }

    /** The prefill effect: in edit mode the cell's type, URLs and names (a
        quad-audio cell's padded to four slots, with its background types);
        otherwise the empty one-stream video form. The file inputs are cleared
        either way. */
    method Load(cellToEdit: Option<Cell>)
      requires cellToEdit.Some? ==> WellTyped(cellToEdit.value)
      requires isEditMode == cellToEdit.Some?
      modifies this`cellType, this`urls, this`streamNames, this`imageFiles, this`titleImageFiles,
               this`backgroundTypes, this`backgroundVideoFiles
      ensures Valid()
      ensures imageFiles == titleImageFiles == backgroundVideoFiles == Repeat(None, SlotCount)
      ensures cellToEdit.None? ==>
                cellType == CellType.Video && urls == [""] && streamNames == [""] &&
                backgroundTypes == Repeat(AudioBackgroundType.Image, SlotCount)
      ensures cellToEdit.Some? ==> cellType == cellToEdit.value.cellType
      ensures cellToEdit.Some? && cellToEdit.value.item.VideoItem? ==>
                urls == cellToEdit.value.item.urls && streamNames == [cellToEdit.value.item.name] &&
                backgroundTypes == old(backgroundTypes)
      ensures cellToEdit.Some? && cellToEdit.value.item.ImageItem? ==>
                urls == [""] && streamNames == [cellToEdit.value.item.name] &&
                backgroundTypes == old(backgroundTypes)
      ensures cellToEdit.Some? && cellToEdit.value.item.QuadAudioItem? ==>
                var item := cellToEdit.value.item;
                && |urls| == PaddedLength(|item.urls|) && urls[..|item.urls|] == item.urls
                && (forall i :: |item.urls| <= i < |urls| ==> urls[i] == "")
                && |streamNames| == PaddedLength(|item.streamNames|) && streamNames[..|item.streamNames|] == NamesOrEmpty(item.streamNames)
                && (forall i :: |item.streamNames| <= i < |streamNames| ==> streamNames[i] == "")
                && |backgroundTypes| == PaddedLength(|item.backgroundTypes|)
                && backgroundTypes[..|item.backgroundTypes|] == TypesOrImage(item.backgroundTypes)
                && (forall i :: |item.backgroundTypes| <= i < |backgroundTypes| ==>
                                  backgroundTypes[i] == AudioBackgroundType.Image)
    {
      if cellToEdit.Some? {
        var cell := cellToEdit.value;
        cellType := cell.cellType;
        match cell.item {
          case VideoItem(itemUrls, name, _, _, _) =>
            urls := itemUrls;
            streamNames := [name];
          case ImageItem(name, _) =>
            urls := [""];
            streamNames := [name];
          case QuadAudioItem(itemUrls, _, _, itemNames, _, itemTypes, _, _) =>
            urls := PadToSlots(itemUrls, "");
            streamNames := PadToSlots(NamesOrEmpty(itemNames), "");
            backgroundTypes := PadToSlots(TypesOrImage(itemTypes), AudioBackgroundType.Image);
        }
      } else {
        cellType := CellType.Video;
        urls := [""];
        streamNames := [""];
        backgroundTypes := Repeat(AudioBackgroundType.Image, SlotCount);
      }
      imageFiles := Repeat(None, SlotCount);
      titleImageFiles := Repeat(None, SlotCount);
      backgroundVideoFiles := Repeat(None, SlotCount);
    }

    /** `handleTypeChange`: a quad-audio form starts over with four empty
        slots; a video or image form with one empty stream and one file slot,
        keeping its background fields. */
    method HandleTypeChange(newType: CellType)
      requires !isEditMode
      modifies this`cellType, this`urls, this`streamNames, this`imageFiles, this`titleImageFiles,
               this`backgroundTypes, this`backgroundVideoFiles
      ensures Valid() && cellType == newType
      ensures newType == CellType.QuadAudio ==>
                && urls == Repeat("", SlotCount) && streamNames == Repeat("", SlotCount)
                && imageFiles == titleImageFiles == backgroundVideoFiles == Repeat(None, SlotCount)
                && backgroundTypes == Repeat(AudioBackgroundType.Image, SlotCount)
      ensures newType != CellType.QuadAudio ==>
                && urls == [""] && streamNames == [""] && imageFiles == [None] && titleImageFiles == [None]
                && backgroundTypes == old(backgroundTypes) && backgroundVideoFiles == old(backgroundVideoFiles)
    {
      cellType := newType;
      if newType == CellType.QuadAudio {
        urls := Repeat("", SlotCount);
        streamNames := Repeat("", SlotCount);
        imageFiles := Repeat(None, SlotCount);
        titleImageFiles := Repeat(None, SlotCount);
        backgroundTypes := Repeat(AudioBackgroundType.Image, SlotCount);
        backgroundVideoFiles := Repeat(None, SlotCount);
      } else {
        urls := [""];
        streamNames := [""];
        imageFiles := [None];
        titleImageFiles := [None];
      }
    }

    method HandleUrlChange(index: nat, value: string)
      requires Valid() && index <= |urls|
      modifies this`urls
      ensures Valid() && urls == Put(old(urls), index, value)
    {
      urls := Put(urls, index, value);
    }

    method HandleStreamNameChange(index: nat, value: string)
      requires Valid() && index <= |streamNames|
      modifies this`streamNames
      ensures Valid() && streamNames == Put(old(streamNames), index, value)
    {
      streamNames := Put(streamNames, index, value);
    }

    /** A cleared file input (`null`) leaves the slot empty. */
    method HandleFileChange(index: nat, file: Option<File>)
      requires index <= |imageFiles|
      modifies this`imageFiles
      ensures imageFiles == Put(old(imageFiles), index, file)
    {
      imageFiles := Put(imageFiles, index, file);
    }

    method HandleTitleFileChange(index: nat, file: Option<File>)
      requires index <= |titleImageFiles|
      modifies this`titleImageFiles
      ensures titleImageFiles == Put(old(titleImageFiles), index, file)
    {
      titleImageFiles := Put(titleImageFiles, index, file);
    }

    method HandleBackgroundTypeChange(index: nat, kind: AudioBackgroundType)
      requires index <= |backgroundTypes|
      modifies this`backgroundTypes
      ensures backgroundTypes == Put(old(backgroundTypes), index, kind)
    {
      backgroundTypes := Put(backgroundTypes, index, kind);
    }

    method HandleBackgroundVideoFileChange(index: nat, file: Option<File>)
      requires index <= |backgroundVideoFiles|
      modifies this`backgroundVideoFiles
      ensures backgroundVideoFiles == Put(old(backgroundVideoFiles), index, file)
    {
      backgroundVideoFiles := Put(backgroundVideoFiles, index, file);
    }

    /** `handleSubmit`: the error shows the first failed check, or clears; an
        accepted form is handed on as it stands, and then has the first URL
        and name the supervisor builds the cell from. */
    method HandleSubmit() returns (saved: Option<Submission>)
      requires Valid()
      modifies this`error
      ensures var v := Validate(cellType, urls, streamNames, imageFiles, isEditMode);
              && (saved.Some? <==> v == Accepted)
              && error == (if v.Rejected? then v.message else "")
      ensures saved.Some? ==>
                saved.value == Submission(cellType, urls, streamNames, imageFiles, titleImageFiles,
                                          backgroundTypes, backgroundVideoFiles)
      ensures saved.Some? ==> |saved.value.urls| >= 1 && |saved.value.names| >= 1
    {
      error := "";
      var v := Validate(cellType, urls, streamNames, imageFiles, isEditMode);
      if v.Rejected? {
        error := v.message;
        return None;
      }
      AcceptedForm(cellType, urls, streamNames, imageFiles, isEditMode);
      saved := Some(Submission(cellType, urls, streamNames, imageFiles, titleImageFiles,
                               backgroundTypes, backgroundVideoFiles));
    }
  }
}
