/** The schedule page: the light and dark switch times, loaded from and saved
    to the local `themeSchedule` key. */
module Settings {
  import opened Preferences
  import opened Host

  const DefaultLightTime := "06:00"
  const DefaultDarkTime := "18:00"

  /** A stored time, or the default when it is absent or empty (`||` falls
      back on both). */
  function TimeOrDefault(stored: Option<string>, default: string): (t: string)
    ensures stored.Some? && stored.value != "" ==> t == stored.value
    ensures stored.None? || stored.value == "" ==> t == default
  {
    match stored
    case Some(v) => if v != "" then v else default
    case None => default
  }

  /** The times the inputs show for what the local store holds. */
  function LoadedTimes(local: Option<StoredSchedule>): (times: (string, string))
    ensures local.None? ==> times == (DefaultLightTime, DefaultDarkTime)
    ensures local.Some? ==> times.0 == TimeOrDefault(local.value.light, DefaultLightTime)
    ensures local.Some? ==> times.1 == TimeOrDefault(local.value.dark, DefaultDarkTime)
    ensures times.0 != "" && times.1 != ""
  {
    match local
    case Some(s) => (TimeOrDefault(s.light, DefaultLightTime), TimeOrDefault(s.dark, DefaultDarkTime))
    case None => (DefaultLightTime, DefaultDarkTime)
  }

  /** The outcome of checking the two times, in the order Save checks them. */
  datatype Verdict = MissingTime | SameTimes | Accepted

  function CheckSchedule(lightTime: string, darkTime: string): (v: Verdict)
    ensures v == MissingTime <==> lightTime == "" || darkTime == ""
    ensures v == SameTimes <==> lightTime != "" && darkTime != "" && lightTime == darkTime
    ensures v == Accepted <==> lightTime != "" && darkTime != "" && lightTime != darkTime
  {
    if lightTime == "" || darkTime == "" then MissingTime
    else if lightTime == darkTime then SameTimes
    else Accepted
  }

  function ErrorText(v: Verdict): string {
    match v
    case MissingTime => "Please select both light and dark theme times."
    case SameTimes => "Light and dark times cannot be the same."
    case Accepted => ""
  }

  const SavedText := "Settings saved successfully!"
  const FailedText := "Failed to save settings."

  /** Saving an accepted schedule and loading the page again shows the same
      two times. */
  lemma AcceptedScheduleReloads(lightTime: string, darkTime: string)
    requires CheckSchedule(lightTime, darkTime) == Accepted
    ensures LoadedTimes(Some(StoredSchedule(Some(lightTime), Some(darkTime)))) == (lightTime, darkTime)
  {
  }

  /** Freshly loaded inputs are never reported as missing: Save right after
      loading either stores the times or reports that they are equal. */
  lemma LoadedTimesNeverMissing(local: Option<StoredSchedule>)
    ensures var times := LoadedTimes(local);
            CheckSchedule(times.0, times.1) != MissingTime
  {
  }

  /** A status element of the page: its text, its CSS class and whether it is displayed. */
  class MessageElement {
    var text: string
    var className: string
    var shown: bool

    constructor ()
      ensures text == "" && className == "" && !shown
    {
      text, className, shown := "", "", false;
    }
  }

  class SchedulePage {
    const host: Browser
    const errorMsg: MessageElement
    const saveMsg: MessageElement
    var lightInput: string
    var darkInput: string

    /** Opening the page: the inputs are filled from the local store. */
    constructor (host: Browser, errorMsg: MessageElement, saveMsg: MessageElement)
      ensures this.host == host && this.errorMsg == errorMsg && this.saveMsg == saveMsg
      ensures (lightInput, darkInput) == LoadedTimes(host.local)
    {
      this.host := host;
      this.errorMsg := errorMsg;
      this.saveMsg := saveMsg;
      lightInput, darkInput := "", "";
      new;
      Load();
    }

    /** Reads `themeSchedule` and shows its times, or the defaults. */
    method Load()
      modifies this`lightInput, this`darkInput
      ensures (lightInput, darkInput) == LoadedTimes(host.local)
    {
      var schedule := GetOr(host.local, StoredSchedule(None, None));
      lightInput := TimeOrDefault(schedule.light, DefaultLightTime);
      darkInput := TimeOrDefault(schedule.dark, DefaultDarkTime);
    }

    /** Empties and hides each of the given elements. */
    method ClearMessages(els: seq<MessageElement>)
      modifies set k | 0 <= k < |els| :: els[k]
      ensures forall k :: 0 <= k < |els| ==> els[k].text == "" && !els[k].shown
      ensures forall k :: 0 <= k < |els| ==> els[k].className == old(els[k].className)
    {
      for i := 0 to |els|
        invariant forall k :: 0 <= k < i ==> els[k].text == "" && !els[k].shown
        invariant forall k :: 0 <= k < |els| ==> els[k].className == old(els[k].className)
      {
        els[i].text := "";
        els[i].shown := false;
      }
    }

    /** The Save button: clears both messages, then either reports the first
      failed check or writes the schedule and reports whether the write
      succeeded (`writeOk`). */
    method OnSave(writeOk: bool)
      requires errorMsg != saveMsg
      modifies errorMsg, saveMsg, host`local
      ensures var v := CheckSchedule(lightInput, darkInput);
              if v == Accepted then
                host.local == (if writeOk then Some(StoredSchedule(Some(lightInput), Some(darkInput)))
                               else old(host.local)) &&
                errorMsg.text == "" && !errorMsg.shown &&
                saveMsg.text == (if writeOk then SavedText else FailedText) &&
                saveMsg.className == (if writeOk then "success" else "fail") && saveMsg.shown
              else
                host.local == old(host.local) &&
                errorMsg.text == ErrorText(v) && errorMsg.shown &&
                saveMsg.text == "" && saveMsg.className == "" && !saveMsg.shown
      ensures errorMsg.className == old(errorMsg.className)
    {
      var lightTime := lightInput;
      var darkTime := darkInput;
      var messages := [errorMsg, saveMsg];
      ClearMessages(messages);
      assert messages[0] == errorMsg && messages[1] == saveMsg;
      saveMsg.className := "";
      if lightTime == "" || darkTime == "" {
        errorMsg.text := "Please select both light and dark theme times.";
        errorMsg.shown := true;
        return;
      }
      if lightTime == darkTime {
        errorMsg.text := "Light and dark times cannot be the same.";
        errorMsg.shown := true;
        return;
      }
      if writeOk {
        host.local := Some(StoredSchedule(Some(lightTime), Some(darkTime)));
        saveMsg.text := SavedText;
        saveMsg.className := "success";
        saveMsg.shown := true;
      } else {
        saveMsg.text := FailedText;
        saveMsg.className := "fail";
        saveMsg.shown := true;
      }
    }
  }
}
