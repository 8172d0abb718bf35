/** The dashboard's message composer (components/Chat/ChatInput.tsx): text,
    one attached file or one recorded audio clip, the emoji picker, and the
    rules that enable its controls. */
module ChatInput {
  import opened Wrappers
  import opened Text

  /** Attachments above 5 MiB are refused. */
  const MaxAttachmentBytes: nat := 5 * 1024 * 1024
  const FileTooLargeError: string := "حجم الملف كبير جداً. الرجاء اختيار ملف أقل من 5 ميجابايت"
  const RecordingFailedError: string := "تعذر بدء التسجيل الصوتي. تحقق من إعدادات الميكروفون."
  /** The type of the blob built from the recorder's chunks. */
  const RecordedAudioType: string := "audio/webm"

  datatype FileInfo = FileInfo(name: string, size: nat)

  datatype AudioClip = AudioClip(mimeType: string, size: nat)

  /** The argument of `onSend`; `text` is `undefined` when nothing but
      whitespace was typed. */
  datatype Payload = Payload(text: Option<string>, file: Option<FileInfo>, audio: Option<AudioClip>)

  /** What pressing "send" hands to `onSend`: nothing when the text is blank
      and neither a file nor an audio clip is present; otherwise the trimmed
      text (absent when blank) with the file and the clip as they are. */
  function PayloadFor(text: string, file: Option<FileInfo>, audio: Option<AudioClip>): (p: Option<Payload>)
    ensures p.None? <==> AllWhitespace(text) && file.None? && audio.None?
    ensures p.Some? ==>
      p.value.file == file && p.value.audio == audio
      && (p.value.text.None? <==> AllWhitespace(text))
      && (p.value.text.Some? ==> p.value.text.value == Trim(text) && p.value.text.value != [])
  {
    if IsBlank(text) && file.None? && audio.None? then None
    else Some(Payload(if IsBlank(text) then None else Some(Trim(text)), file, audio))
  }

  /** The send button is disabled exactly when pressing it would send nothing. */
  function SendButtonDisabled(text: string, file: Option<FileInfo>, audio: Option<AudioClip>): (disabled: bool)
    ensures disabled <==> PayloadFor(text, file, audio).None?
    ensures !disabled <==> !AllWhitespace(text) || file.Some? || audio.Some?
  {
    IsBlank(text) && file.None? && audio.None?
  }

  /** The text field, the attach button and the emoji button are disabled
      while a file or a clip is held, while recording, and while the
      microphone is being opened or a recording is being finished. */
  function ControlsLocked(file: Option<FileInfo>, audio: Option<AudioClip>, isRecording: bool, loadingAudio: bool): (locked: bool)
    ensures !locked ==> file.None? && audio.None? && !isRecording && !loadingAudio
    ensures file.Some? || audio.Some? || isRecording || loadingAudio ==> locked
  {
    file.Some? || audio.Some? || isRecording || loadingAudio
  }

  /** The microphone button (shown when not recording) is disabled while a
      file or a clip is held or the microphone is being opened. */
  function MicDisabled(file: Option<FileInfo>, audio: Option<AudioClip>, loadingAudio: bool): (disabled: bool)
    ensures disabled <==> file.Some? || audio.Some? || loadingAudio
  {
    file.Some? || audio.Some? || loadingAudio
  }

  /** The live emoji preview shows typed text when no attachment is held. */
  function ShowEmojiPreview(text: string, file: Option<FileInfo>, audio: Option<AudioClip>): (shown: bool)
    ensures shown <==> text != [] && file.None? && audio.None?
  {
    text != "" && file.None? && audio.None?
  }

  /** With nothing attached, the preview is the send button's mirror except
      for text of whitespace only: such text is previewed while the send
      button stays disabled; no preview means nothing can be sent. */
  lemma PreviewVersusSend(text: string)
    ensures ShowEmojiPreview(text, None, None) && SendButtonDisabled(text, None, None)
            <==> text != [] && AllWhitespace(text)
    ensures !ShowEmojiPreview(text, None, None) ==> SendButtonDisabled(text, None, None)
    ensures !SendButtonDisabled(text, None, None) ==> ShowEmojiPreview(text, None, None)
  {
  }

  /** An attachment hides the preview whatever was typed. */
  lemma AttachmentHidesPreview(text: string, file: Option<FileInfo>, audio: Option<AudioClip>)
    requires file.Some? || audio.Some?
    ensures !ShowEmojiPreview(text, file, audio)
    ensures !SendButtonDisabled(text, file, audio)
  {
  }

  /** A file the size check lets through. */
  predicate WithinSizeLimit(f: FileInfo) {
    f.size <= MaxAttachmentBytes
  }

  /** The composer's state. A press of a control with the mouse first
      reaches the document's mouse-down listener, which closes an open
      picker, since every control lies outside the picker's container;
      activating the same control from the keyboard fires no mouse-down.
      The handlers below take `byMouse` to tell the two apart. */
  class Composer {
    var text: string
    var showEmoji: bool
    var file: Option<FileInfo>
    var audio: Option<AudioClip>
    var isRecording: bool
    /** `recorder !== null`. */
    var hasRecorder: bool
    var loadingAudio: bool
    var error: Option<string>

    /** What the enabled controls keep true: an attached file excludes an
        audio clip and a recording in progress; a recording in progress has
        a recorder and keeps `loadingAudio` set until the recorder reports
        that it stopped. The text and the picker are not constrained: a
        picker left open by a keyboard-activated attach keeps appending
        emoji to the text while the file is held. */
    ghost predicate Valid()
      reads this
    {
      (file.Some? ==> audio.None? && !isRecording && !loadingAudio)
      && (isRecording ==> loadingAudio && hasRecorder)
    }

    function Locked(): bool
      reads this
    {
      ControlsLocked(file, audio, isRecording, loadingAudio)
    }

    constructor ()
      ensures Valid()
      ensures text == "" && !showEmoji && file.None? && audio.None?
      ensures !isRecording && !hasRecorder && !loadingAudio && error.None?
    {
      text := "";
      showEmoji := false;
      file := None;
      audio := None;
      isRecording := false;
      hasRecorder := false;
      loadingAudio := false;
      error := None;
    }

    /** Typing; a disabled text field takes no input. */
    method EditText(value: string)
      requires Valid()
      modifies this
      ensures Valid()
      ensures text == if old(Locked()) then old(text) else value
      ensures file == old(file) && audio == old(audio) && showEmoji == old(showEmoji)
      ensures isRecording == old(isRecording) && hasRecorder == old(hasRecorder)
      ensures loadingAudio == old(loadingAudio) && error == old(error)
    {
      if !Locked() {
        text := value;
      }
    }

    /** `handleSend`, from the send button (`byMouse` for a click) or the
        Enter key. When something is sent, text, file and clip are cleared,
        the picker closes and the error is cleared; the recording state is
        left alone. When nothing is sent, only a mouse press changes
        anything: it closes the picker. */
    method PressSend(byMouse: bool) returns (payload: Option<Payload>)
      requires Valid()
      modifies this
      ensures Valid()
      ensures payload == PayloadFor(old(text), old(file), old(audio))
      ensures payload.Some? ==>
        text == "" && file.None? && audio.None? && !showEmoji && error.None?
      ensures payload.None? ==>
        text == old(text) && file == old(file) && audio == old(audio)
        && showEmoji == (old(showEmoji) && !byMouse) && error == old(error)
      ensures isRecording == old(isRecording) && hasRecorder == old(hasRecorder)
      ensures loadingAudio == old(loadingAudio)
    {
      var typed, attached, recorded := text, file, audio;
      if byMouse {
        showEmoji := false;
      }
      payload := PayloadFor(typed, attached, recorded);
      if payload.None? {
        return;
      }
      text := "";
      file := None;
      audio := None;
      showEmoji := false;
      error := None;
      assert typed == old(text) && attached == old(file) && recorded == old(audio);
    }

    /** The attach button followed by the file dialog (`handleFileChange`).
        A mouse press closes the picker, even on the disabled button; a
        keyboard activation leaves it as it was. A disabled button does
        nothing else. No file chosen: nothing else changes. A file above the
        limit sets the error and leaves file, clip and text as they were.
        Otherwise the file is attached, and the clip, the text and the error
        are cleared. */
    method AttachFile(byMouse: bool, chosen: Option<FileInfo>)
      requires Valid()
      modifies this
      ensures Valid()
      ensures showEmoji == (old(showEmoji) && !byMouse)
      ensures old(Locked()) ==>
        text == old(text) && file == old(file) && audio == old(audio) && error == old(error)
      ensures !old(Locked()) && chosen.None? ==>
        text == old(text) && file == old(file) && audio == old(audio) && error == old(error)
      ensures !old(Locked()) && chosen.Some? && !WithinSizeLimit(chosen.value) ==>
        error == Some(FileTooLargeError)
        && text == old(text) && file == old(file) && audio == old(audio)
      ensures !old(Locked()) && chosen.Some? && WithinSizeLimit(chosen.value) ==>
        file == chosen && audio.None? && text == "" && error.None?
      ensures isRecording == old(isRecording) && hasRecorder == old(hasRecorder)
      ensures loadingAudio == old(loadingAudio)
    {
      if byMouse {
        showEmoji := false;
      }
      if Locked() {
        return;
      }
      if chosen.Some? {
        if chosen.value.size > MaxAttachmentBytes {
          error := Some(FileTooLargeError);
          return;
        }
        file := chosen;
        audio := None;
        text := "";
        error := None;
      }
    }

    /** `handleRemoveFile`, from the close button of the file preview. */
    method RemoveFile(byMouse: bool)
      requires Valid()
      modifies this
      ensures Valid()
      ensures file.None?
      ensures showEmoji == (old(showEmoji) && !byMouse)
      ensures text == old(text) && audio == old(audio)
      ensures isRecording == old(isRecording) && hasRecorder == old(hasRecorder)
      ensures loadingAudio == old(loadingAudio) && error == old(error)
    {
      if byMouse {
        showEmoji := false;
      }
      file := None;
    }

    /** `handleRemoveAudio`, from the close button of the clip preview. */
    method RemoveAudio(byMouse: bool)
      requires Valid()
      modifies this
      ensures Valid()
      ensures audio.None?
      ensures showEmoji == (old(showEmoji) && !byMouse)
      ensures text == old(text) && file == old(file)
      ensures isRecording == old(isRecording) && hasRecorder == old(hasRecorder)
      ensures loadingAudio == old(loadingAudio) && error == old(error)
    {
      if byMouse {
        showEmoji := false;
      }
      audio := None;
    }

    /** The microphone button (`handleStartRecord`), shown when not recording
        and pressable when not disabled. `granted` is whether the browser
        opened the microphone. */
    method ClickMic(byMouse: bool, granted: bool)
      requires Valid()
      modifies this
      ensures Valid()
      ensures (old(isRecording) || MicDisabled(old(file), old(audio), old(loadingAudio))) ==>
        isRecording == old(isRecording) && hasRecorder == old(hasRecorder)
        && loadingAudio == old(loadingAudio) && error == old(error)
      ensures !(old(isRecording) || MicDisabled(old(file), old(audio), old(loadingAudio))) ==>
        (granted ==> isRecording && hasRecorder && loadingAudio && error.None?)
        && (!granted ==> !isRecording && hasRecorder == old(hasRecorder)
                         && !loadingAudio && error == Some(RecordingFailedError))
      ensures text == old(text) && file == old(file) && audio == old(audio)
      ensures showEmoji == (old(showEmoji) && !byMouse)
    {
      if byMouse {
        showEmoji := false;
      }
      if isRecording || MicDisabled(file, audio, loadingAudio) {
        return;
      }
      error := None;
      loadingAudio := true;
      if granted {
        isRecording := true;
        hasRecorder := true;
      } else {
        error := Some(RecordingFailedError);
        loadingAudio := false;
      }
    }

    /** The stop button (`handleStopRecord`), shown only while recording: it
        asks the recorder to stop (the result tells whether one was held),
        drops the recorder and clears `isRecording`. */
    method ClickStop(byMouse: bool) returns (stopRequested: bool)
      requires Valid()
      modifies this
      ensures Valid()
      ensures stopRequested == (old(isRecording) && old(hasRecorder))
      ensures old(isRecording) ==> !hasRecorder && !isRecording
      ensures !old(isRecording) ==> hasRecorder == old(hasRecorder) && isRecording == old(isRecording)
      ensures showEmoji == (old(showEmoji) && !byMouse)
      ensures text == old(text) && file == old(file) && audio == old(audio)
      ensures loadingAudio == old(loadingAudio) && error == old(error)
    {
      if byMouse {
        showEmoji := false;
      }
      stopRequested := false;
      if isRecording {
        stopRequested := hasRecorder;
        hasRecorder := false;
        isRecording := false;
      }
    }

    /** The recorder's `onstop` event, which fires only for a recording this
        composer started and so only while `loadingAudio` is set: the
        recorded clip becomes the audio attachment. */
    method RecorderStopped(size: nat)
      requires Valid()
      requires loadingAudio
      modifies this
      ensures Valid()
      ensures audio == Some(AudioClip(RecordedAudioType, size))
      ensures !isRecording && !loadingAudio
      ensures text == old(text) && file == old(file) && showEmoji == old(showEmoji)
      ensures hasRecorder == old(hasRecorder) && error == old(error)
    {
      audio := Some(AudioClip(RecordedAudioType, size));
      isRecording := false;
      loadingAudio := false;
    }

    /** The emoji button (`setShowEmoji(s => !s)`). From the keyboard it
        toggles the picker. With the mouse the mouse-down first closes an
        open picker and the click then opens it again, so the picker ends up
        open either way. A disabled button does nothing beyond the
        mouse-down. */
    method ToggleEmoji(byMouse: bool)
      requires Valid()
      modifies this
      ensures Valid()
      ensures old(Locked()) ==> showEmoji == (old(showEmoji) && !byMouse)
      ensures !old(Locked()) && byMouse ==> showEmoji
      ensures !old(Locked()) && !byMouse ==> showEmoji == !old(showEmoji)
      ensures text == old(text) && file == old(file) && audio == old(audio)
      ensures isRecording == old(isRecording) && hasRecorder == old(hasRecorder)
      ensures loadingAudio == old(loadingAudio) && error == old(error)
    {
      if byMouse {
        showEmoji := false;
      }
      if !Locked() {
        showEmoji := !showEmoji;
      }
    }

    /** A pick in the open picker (`handleEmojiClick`) appends the emoji to
        the text; the picker is open only if it was, and a press inside it
        does not close it. */
    method PickEmoji(emoji: string)
      requires Valid()
      modifies this
      ensures Valid()
      ensures text == if old(showEmoji) then old(text) + emoji else old(text)
      ensures showEmoji == old(showEmoji) && file == old(file) && audio == old(audio)
      ensures isRecording == old(isRecording) && hasRecorder == old(hasRecorder)
      ensures loadingAudio == old(loadingAudio) && error == old(error)
    {
      if showEmoji {
        text := text + emoji;
      }
    }

    /** Escape, or a mouse-down anywhere outside the picker that is not on
        one of the composer's controls, closes it. */
    method ClosePicker()
      requires Valid()
      modifies this
      ensures Valid()
      ensures !showEmoji
      ensures text == old(text) && file == old(file) && audio == old(audio)
      ensures isRecording == old(isRecording) && hasRecorder == old(hasRecorder)
      ensures loadingAudio == old(loadingAudio) && error == old(error)
    {
      showEmoji := false;
    }
  }
}
