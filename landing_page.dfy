/** The landing page script: theme preference, the launch countdown and the
    interest form. The countdown texts are the state of a `Timer`; storage,
    the root's `data-theme` attribute, the toggle icon, the form controls
    and the last notice shown are the state of a `Page`. */
module LandingPage {
  import opened Records
  import opened Theme
  import opened Countdown

  /** The two alerts the form handler can show. */
  datatype Notice = ThankYou | SubmitFailed

  /** What the data store answered to the insert. */
  datatype InsertOutcome = Inserted | InsertFailed

  /** The record the submit handler sends: the form's values copied under
      the table's column names, stamped with the submission time. */
  function MakeSubmission(f: FormFields, now: int): (r: Submission)
    ensures r.name == f.name && r.email == f.email && r.message == f.message
    ensures r.watchModel == Text(f.watchModel) && r.topFeature == Text(f.topFeature)
    ensures r.createdAt == now
  {
    Submission(f.name, f.email, Text(f.watchModel), Text(f.topFeature), f.message, now)
  }

  /** The form values a record was built from, when its category columns
      hold strings. */
  function FormOf(r: Submission): Option<FormFields>
  {
    match (r.watchModel, r.topFeature)
    case (Text(w), Text(t)) => Some(FormFields(r.name, r.email, w, t, r.message))
    case _ => None
  }

  /** Nothing the user typed is lost or altered on the way into the record. */
  lemma SubmissionKeepsForm(f: FormFields, now: int)
    ensures FormOf(MakeSubmission(f, now)) == Some(f)
  {
  }

  /** The countdown element group, counting down to a fixed launch time. */
  class Timer {
    const launch: int
    var display: Display

    /** The script draws the countdown once as soon as it loads. */
    constructor (launch: int, now: int)
      ensures this.launch == launch && display == Tick(launch, now)
    {
      this.launch := launch;
      display := Tick(launch, now);
    }

    /** `updateCountdown` at time `now`. */
    method UpdateCountdown(now: int)
      modifies this`display
      ensures display == Tick(launch, now)
    {
      display := Tick(launch, now);
    }
  }

  class Page {
    var storage: map<string, string>
    var themeAttr: Option<string>
    var icon: Option<Icon>
    const defaults: FormFields
    var form: FormFields
    var notice: Option<Notice>

    /** Loading the script: the saved theme is applied and the form holds
        its default values. */
    constructor (storage: map<string, string>, defaults: FormFields)
      ensures themeAttr == Some(SavedTheme(storage))
      ensures this.storage == storage[ThemeKey := SavedTheme(storage)]
      ensures icon == Some(IconFor(SavedTheme(storage)))
      ensures this.defaults == defaults && form == defaults && notice == None
    {
      this.storage := storage;
      themeAttr := None;
      icon := None;
      this.defaults := defaults;
      form := defaults;
      notice := None;
      new;
      InitTheme();
    }

    /** `setTheme`: the attribute and the stored preference both become
        `theme`, and the icon follows it. */
    method SetTheme(theme: string)
      modifies this`themeAttr, this`storage, this`icon
      ensures themeAttr == Some(theme)
      ensures storage == old(storage)[ThemeKey := theme]
      ensures icon == Some(IconFor(theme))
    {
      themeAttr := Some(theme);
      storage := storage[ThemeKey := theme];
      icon := Some(IconFor(theme));
    }

    /** `initTheme`: apply the stored preference, light when there is none. */
    method InitTheme()
      modifies this`themeAttr, this`storage, this`icon
      ensures themeAttr == Some(SavedTheme(old(storage)))
      ensures storage == old(storage)[ThemeKey := SavedTheme(old(storage))]
      ensures icon == Some(IconFor(SavedTheme(old(storage))))
    {
      SetTheme(SavedTheme(storage));
    }

    /** The toggle button's click handler. */
    method ClickToggle()
      modifies this`themeAttr, this`storage, this`icon
      ensures themeAttr == Some(Toggle(old(themeAttr)))
      ensures storage == old(storage)[ThemeKey := Toggle(old(themeAttr))]
      ensures icon == Some(IconFor(Toggle(old(themeAttr))))
      ensures themeAttr != old(themeAttr)
    {
      ToggleChanges(themeAttr);
      SetTheme(Toggle(themeAttr));
    }

    /** The form's submit handler, given the store's answer to the insert:
        the record sent is built from the current form values; the form is
        reset only when the insert succeeded, and a failure leaves what the
        user typed in place. */
    method Submit(now: int, outcome: InsertOutcome) returns (sent: Submission)
      modifies this`form, this`notice
      ensures sent == MakeSubmission(old(form), now)
      ensures outcome == Inserted ==> form == defaults && notice == Some(ThankYou)
      ensures outcome == InsertFailed ==> form == old(form) && notice == Some(SubmitFailed)
    {
      sent := MakeSubmission(form, now);
      if outcome == Inserted {
        notice := Some(ThankYou);
        form := defaults;
      } else {
        notice := Some(SubmitFailed);
      }
    }
  }
}
