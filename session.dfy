/**
 * The labelling session: the loaded file list, the cursor into it, the saved
 * records and the input fields the operator edits, with the actions the
 * tool's buttons and shortcuts trigger.
 */
module Session {
  import opened Wrappers
  import opened Records
  import PathNames
  import Ordering
  import Labels
  import Report

  /** What the speech recognizer did with one audio file. */
  datatype RecognizerOutcome =
    | Recognized(text: string)
    | Unintelligible
    | RequestFailed(detail: string)
    | Failed(detail: string)

  /**
   * The text transcribe_audio hands back for each outcome. A silent or
   * unintelligible file yields "[Unintelligible]"; every failure yields a
   * bracketed message, so failures never pass as empty text.
   */
  function TranscriptText(o: RecognizerOutcome): (r: string)
    ensures o.Recognized? ==> r == o.text
    ensures o.Unintelligible? ==> r == "[Unintelligible]"
    ensures !o.Recognized? ==> |r| >= 2 && r[0] == '[' && r[|r| - 1] == ']'
  {
    match o
    case Recognized(text) => text
    case Unintelligible => "[Unintelligible]"
    case RequestFailed(detail) => "[Error: " + detail + "]"
    case Failed(detail) => "[Unexpected error: " + detail + "]"
  }

  /** next_audio of the tool: advance only while a later file exists. */
  function GuardedNext(cursor: int, count: nat): (r: int)
    ensures r == cursor + 1 <==> cursor + 1 < count
    ensures r != cursor + 1 ==> r == cursor
  {
    if cursor < count - 1 then cursor + 1 else cursor
  }

  /** previous_audio of the tool: step back only when not at the first file. */
  function GuardedPrevious(cursor: int): (r: int)
    ensures r == cursor - 1 <==> cursor > 0
    ensures r != cursor - 1 ==> r == cursor
  {
    if cursor > 0 then cursor - 1 else cursor
  }

  /** The shortcut handler's next_audio as written: step, then clamp to the last index. */
  function ClampedNextAsWritten(cursor: int, count: nat): (r: int)
    ensures r <= cursor + 1 && r <= count - 1
    ensures r == cursor + 1 || r == count - 1
  {
    if cursor + 1 >= count then count - 1 else cursor + 1
  }

  /** The shortcut handler's next_audio with the lower bound 0 also enforced. */
  function ClampedNext(cursor: int, count: nat): (r: int)
    ensures r >= 0 && r >= ClampedNextAsWritten(cursor, count)
    ensures r == 0 || r == ClampedNextAsWritten(cursor, count)
  {
    var stepped := ClampedNextAsWritten(cursor, count);
    if stepped < 0 then 0 else stepped
  }

  /** The shortcut handler's previous_audio: step back, then clamp to 0. */
  function ClampedPrevious(cursor: int): (r: int)
    ensures r >= 0 && r >= cursor - 1
    ensures r == 0 || r == cursor - 1
  {
    if cursor - 1 < 0 then 0 else cursor - 1
  }

  /** Every navigation step keeps the cursor within 0..count. */
  lemma NavigationInRange(cursor: int, count: nat)
    requires 0 <= cursor <= count
    ensures 0 <= GuardedNext(cursor, count) <= count
    ensures 0 <= GuardedPrevious(cursor) <= count
    ensures 0 <= ClampedNext(cursor, count) <= count
    ensures 0 <= ClampedPrevious(cursor) <= count
  {
  }

  /**
   * Navigation never moves onto the "all files labeled" position: from a file
   * it reaches a file, unlike saving, whose advance may reach `count`.
   */
  lemma NavigationStaysOnFiles(cursor: int, count: nat)
    requires 0 <= cursor < count
    ensures 0 <= GuardedNext(cursor, count) < count && 0 <= ClampedNext(cursor, count) < count
    ensures 0 <= GuardedPrevious(cursor) < count && 0 <= ClampedPrevious(cursor) < count
    ensures cursor == count - 1 ==> GuardedNext(cursor, count) == cursor && ClampedNext(cursor, count) == cursor
    ensures cursor == 0 ==> GuardedPrevious(cursor) == 0 && ClampedPrevious(cursor) == 0
  {
  }

  /** Forward then back, or back then forward, returns to the same file. */
  lemma NavigationRoundTrip(cursor: int, count: nat)
    ensures 0 <= cursor < count - 1 ==>
              GuardedPrevious(GuardedNext(cursor, count)) == cursor && ClampedPrevious(ClampedNext(cursor, count)) == cursor
    ensures 0 < cursor < count ==>
              GuardedNext(GuardedPrevious(cursor), count) == cursor && ClampedNext(ClampedPrevious(cursor), count) == cursor
  {
  }

  /**
   * On an empty file list the shortcut handler's next_audio sets the cursor to
   * -1, outside 0..count; the guard `cursor < count` of play, waveform and
   * transcribe then holds although there is no file to index.
   */
  lemma ClampedNextAsWrittenLeavesRange(cursor: int)
    requires 0 <= cursor
    ensures ClampedNextAsWritten(cursor, 0) == -1
  {
  }

  /** The correction changes nothing once at least one file is loaded. */
  lemma ClampedNextMatchesAsWritten(cursor: int, count: nat)
    requires count > 0 && 0 <= cursor
    ensures ClampedNext(cursor, count) == ClampedNextAsWritten(cursor, count)
  {
  }

  /**
   * The files of a directory load are the audio entries of the listing, joined
   * to the folder; their basenames, which saving records, are those entries.
   */
  lemma DirectoryBasenames(folder: string, entries: seq<string>)
    requires forall e :: e in entries ==> '/' !in e
    ensures forall p :: p in Ordering.Sort(PathNames.AudioPaths(folder, entries)) ==>
              PathNames.Basename(p) in entries && PathNames.IsAudioName(PathNames.Basename(p))
  {
    var paths := PathNames.AudioPaths(folder, entries);
    Ordering.SortPermutation(paths);
    forall p | p in Ordering.Sort(paths)
      ensures PathNames.Basename(p) in entries && PathNames.IsAudioName(PathNames.Basename(p))
    {
      assert p in multiset(Ordering.Sort(paths));
      assert p in paths;
      var e :| e in entries && PathNames.IsAudioName(e) && p == PathNames.Join(folder, e);
      PathNames.BasenameOfJoin(folder, e);
    }
  }

  /** The state of one run of the labelling tool. */
  class AudioLabelingTool {
    var audioFiles: seq<string>
    var currentIndex: int
    var data: seq<LabelRecord>
    var transcription: string
    var startTime: string
    var endTime: string
    var labelVars: Labels.LabelVars

    /** The cursor stays within 0..|audioFiles|; one 0/1 checkbox variable per label. */
    ghost predicate Valid()
      reads this
    {
      0 <= currentIndex <= |audioFiles| && Labels.WellFormed(labelVars)
    }

    /** A new session: no files, no records, empty fields, every checkbox cleared. */
    constructor ()
      ensures Valid()
      ensures audioFiles == [] && currentIndex == 0 && data == []
      ensures transcription == "" && startTime == "" && endTime == ""
      ensures labelVars == Labels.Unchecked()
    {
      audioFiles := [];
      currentIndex := 0;
      data := [];
      transcription := "";
      startTime := "";
      endTime := "";
      labelVars := Labels.Unchecked();
    }

    /** Load one chosen file; an empty selection (the dialog was cancelled) changes nothing. */
    method LoadAudioFile(selection: string)
      requires Valid()
      modifies this`audioFiles, this`currentIndex
      ensures Valid()
      ensures selection != "" ==> audioFiles == [selection] && currentIndex == 0
      ensures selection == "" ==> audioFiles == old(audioFiles) && currentIndex == old(currentIndex)
    {
      if selection != "" {
        audioFiles := [selection];
        currentIndex := 0;
      }
    }

    /**
     * Load every `.wav` and `.mp3` entry of the chosen folder, whose listing is
     * `entries`, sorted ascending; an empty folder name (the dialog was
     * cancelled) changes nothing.
     */
    method LoadAudioFiles(folder: string, entries: seq<string>)
      requires Valid()
      modifies this`audioFiles, this`currentIndex
      ensures Valid()
      ensures folder != "" ==> audioFiles == Ordering.Sort(PathNames.AudioPaths(folder, entries)) && currentIndex == 0
      ensures folder != "" ==>
                Ordering.Sorted(audioFiles) && multiset(audioFiles) == multiset(PathNames.AudioPaths(folder, entries))
      ensures folder != "" ==> forall p :: p in audioFiles <==>
                exists e :: e in entries && PathNames.IsAudioName(e) && p == PathNames.Join(folder, e)
      ensures folder == "" ==> audioFiles == old(audioFiles) && currentIndex == old(currentIndex)
    {
      if folder != "" {
        var paths := PathNames.AudioPaths(folder, entries);
        audioFiles := paths;
        audioFiles := Ordering.Sort(audioFiles);
        Ordering.SortSpec(paths);
        forall p ensures p in audioFiles <==> p in paths {
          assert p in audioFiles <==> p in multiset(audioFiles);
          assert p in paths <==> p in multiset(paths);
        }
        currentIndex := 0;
      }
    }

    /** The file handed to the player, if the cursor is on one. */
    method PlayAudio() returns (played: Option<string>)
      requires Valid()
      ensures played.Some? <==> currentIndex < |audioFiles|
      ensures played.Some? ==> played.value == audioFiles[currentIndex]
    {
      if currentIndex < |audioFiles| {
        played := Some(audioFiles[currentIndex]);
      } else {
        played := None;
      }
    }

    /** The file handed to the waveform plotter, if the cursor is on one. */
    method PlotWaveform() returns (plotted: Option<string>)
      requires Valid()
      ensures plotted.Some? <==> currentIndex < |audioFiles|
      ensures plotted.Some? ==> plotted.value == audioFiles[currentIndex]
    {
      plotted := None;
      if currentIndex < |audioFiles| {
        plotted := Some(audioFiles[currentIndex]);
      }
    }

    /**
     * Replace the whole transcription field with what the recognizer makes of
     * the current file; with no current file nothing changes.
     */
    method AutoTranscribe(recognize: string -> RecognizerOutcome)
      requires Valid()
      modifies this`transcription
      ensures Valid()
      ensures currentIndex < |audioFiles| ==> transcription == TranscriptText(recognize(audioFiles[currentIndex]))
      ensures currentIndex >= |audioFiles| ==> transcription == old(transcription)
    {
      if currentIndex < |audioFiles| {
        var result := TranscriptText(recognize(audioFiles[currentIndex]));
        transcription := "";
        transcription := result;
      }
    }

    /**
     * Save the fields as a record for the current file and move to the next one.
     * Past the end of the list nothing changes. `allLabeled` is the "All files
     * labeled." signal.
     */
    method SaveLabel() returns (allLabeled: bool)
      requires Valid()
      modifies this`data, this`transcription, this`startTime, this`endTime, this`labelVars, this`currentIndex
      ensures Valid()
      ensures old(currentIndex) < |audioFiles| ==>
                && data == old(data) + [LabelRecord(PathNames.Basename(audioFiles[old(currentIndex)]),
                                                    old(transcription), Labels.LabelsText(old(labelVars)),
                                                    old(startTime), old(endTime))]
                && currentIndex == old(currentIndex) + 1
                && transcription == "" && startTime == "" && endTime == ""
                && labelVars == Labels.Unchecked()
                && (allLabeled <==> currentIndex == |audioFiles|)
      ensures old(currentIndex) >= |audioFiles| ==>
                && data == old(data) && currentIndex == old(currentIndex)
                && transcription == old(transcription) && startTime == old(startTime) && endTime == old(endTime)
                && labelVars == old(labelVars)
                && !allLabeled
    {
      allLabeled := false;
      if currentIndex < |audioFiles| {
        var labels := Labels.Checked(Labels.VOCABULARY, labelVars);
        var entry := LabelRecord(PathNames.Basename(audioFiles[currentIndex]), transcription,
                                 Labels.JoinWith(Labels.SEPARATOR, labels), startTime, endTime);
        data := data + [entry];
        transcription := "";
        startTime := "";
        endTime := "";
        ClearLabelVars();
        currentIndex := currentIndex + 1;
        if currentIndex >= |audioFiles| {
          allLabeled := true;
        }
      }
    }

    /** Set every checkbox variable to 0, one after the other. */
    method ClearLabelVars()
      requires Valid()
      modifies this`labelVars
      ensures Valid()
      ensures labelVars == Labels.Unchecked()
    {
      var i := 0;
      while i < |Labels.VOCABULARY|
        invariant 0 <= i <= |Labels.VOCABULARY|
        invariant labelVars.Keys == old(labelVars).Keys
        invariant forall l :: l in labelVars ==>
                    labelVars[l] == if l in Labels.VOCABULARY[..i] then 0 else old(labelVars)[l]
      {
        var name := Labels.VOCABULARY[i];
        assert Labels.VOCABULARY[..i + 1] == Labels.VOCABULARY[..i] + [name];
        labelVars := labelVars[name := 0];
        i := i + 1;
      }
      assert Labels.VOCABULARY[..i] == Labels.VOCABULARY;
      assert labelVars.Keys == Labels.Unchecked().Keys;
    }

    /** Flip the checkbox of `name`; a name without a checkbox changes nothing. */
    method ToggleLabel(name: string)
      requires Valid()
      modifies this`labelVars
      ensures Valid()
      ensures labelVars == Labels.Toggle(old(labelVars), name)
    {
      if name in labelVars {
        labelVars := labelVars[name := if labelVars[name] == 1 then 0 else 1];
      }
    }

    /** A key press: digits '1'..'8' toggle the label at that position; other keys do nothing. */
    method PressLabelKey(key: char)
      requires Valid()
      modifies this`labelVars
      ensures Valid()
      ensures key in Labels.LABEL_KEYS ==> labelVars == Labels.Toggle(old(labelVars), Labels.LABEL_KEYS[key])
      ensures key !in Labels.LABEL_KEYS ==> labelVars == old(labelVars)
    {
      if key in Labels.LABEL_KEYS {
        ToggleLabel(Labels.LABEL_KEYS[key]);
      }
    }

    /** The tool's next_audio: advance only while a later file exists. */
    method NextAudio()
      requires Valid()
      modifies this`currentIndex
      ensures Valid()
      ensures currentIndex == GuardedNext(old(currentIndex), |audioFiles|)
    {
      if currentIndex < |audioFiles| - 1 {
        currentIndex := currentIndex + 1;
      }
    }

    /** The tool's previous_audio: step back only when not at the first file. */
    method PreviousAudio()
      requires Valid()
      modifies this`currentIndex
      ensures Valid()
      ensures currentIndex == GuardedPrevious(old(currentIndex))
    {
      if currentIndex > 0 {
        currentIndex := currentIndex - 1;
      }
    }

    /**
     * The shortcut handler's next_audio exactly as written: on an empty file
     * list it leaves the cursor at -1, breaking the session invariant.
     */
    method ShortcutNextAudioAsWritten()
      requires Valid()
      modifies this`currentIndex
      ensures currentIndex == ClampedNextAsWritten(old(currentIndex), |audioFiles|)
      ensures Valid() <==> |audioFiles| > 0
    {
      currentIndex := currentIndex + 1;
      if currentIndex >= |audioFiles| {
        currentIndex := |audioFiles| - 1;
      }
    }

    /** The shortcut handler's next_audio, clamped into 0..|audioFiles| - 1 and never below 0. */
    method ShortcutNextAudio()
      requires Valid()
      modifies this`currentIndex
      ensures Valid()
      ensures currentIndex == ClampedNext(old(currentIndex), |audioFiles|)
    {
      currentIndex := currentIndex + 1;
      if currentIndex >= |audioFiles| {
        currentIndex := |audioFiles| - 1;
      }
      if currentIndex < 0 {
        currentIndex := 0;
      }
    }

    /** The shortcut handler's previous_audio: step back, then clamp to 0. */
    method ShortcutPreviousAudio()
      requires Valid()
      modifies this`currentIndex
      ensures Valid()
      ensures currentIndex == ClampedPrevious(old(currentIndex))
    {
      currentIndex := currentIndex - 1;
      if currentIndex < 0 {
        currentIndex := 0;
      }
    }

    /** Export the saved records as the text report. */
    method ExportPdf(io: Report.IoStatus) returns (outcome: Report.PdfOutcome)
      ensures io.IoOk? ==> outcome == Report.Written("output/report.pdf", Report.ReportOps(data))
      ensures io.IoFailed? ==> outcome == Report.Reported("Error generating PDF: " + io.detail)
    {
      outcome := Report.GeneratePdf(data, "output/report.pdf", io);
    }
  }

  /**
   * The operator pressing Enter until the tool reports that all files are
   * labeled: one record per remaining file, in file order, each named after
   * its file, and the signal given exactly once if any file remained.
   */
  method SaveUntilDone(tool: AudioLabelingTool) returns (signals: nat)
    requires tool.Valid()
    modifies tool
    ensures tool.Valid()
    ensures tool.audioFiles == old(tool.audioFiles) && tool.currentIndex == |tool.audioFiles|
    ensures |tool.data| == |old(tool.data)| + |tool.audioFiles| - old(tool.currentIndex)
    ensures tool.data[..|old(tool.data)|] == old(tool.data)
    ensures forall k :: old(tool.currentIndex) <= k < |tool.audioFiles| ==>
              tool.data[|old(tool.data)| + k - old(tool.currentIndex)].filename == PathNames.Basename(tool.audioFiles[k])
    ensures signals == if old(tool.currentIndex) < |tool.audioFiles| then 1 else 0
  {
    signals := 0;
    while tool.currentIndex < |tool.audioFiles|
      invariant tool.Valid()
      invariant tool.audioFiles == old(tool.audioFiles)
      invariant old(tool.currentIndex) <= tool.currentIndex
      invariant |tool.data| == |old(tool.data)| + tool.currentIndex - old(tool.currentIndex)
      invariant tool.data[..|old(tool.data)|] == old(tool.data)
      invariant forall k :: old(tool.currentIndex) <= k < tool.currentIndex ==>
                  tool.data[|old(tool.data)| + k - old(tool.currentIndex)].filename == PathNames.Basename(tool.audioFiles[k])
      invariant signals == if tool.currentIndex == |tool.audioFiles| && old(tool.currentIndex) < |tool.audioFiles| then 1 else 0
      decreases |tool.audioFiles| - tool.currentIndex
    {
      var done := tool.SaveLabel();
      if done {
        signals := signals + 1;
      }
    }
  }
}
