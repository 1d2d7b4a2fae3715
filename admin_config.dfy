/** The admin configuration page: the programme's settings record, edited
    field by field, with an unsaved-changes flag, save and reset. */
module AdminConfig {

  /** The reward rule of one referral level. */
  datatype LevelConfig = LevelConfig(
    percentage: real,
    fixedAmount: real,
    isPercentage: bool,
    minPurchaseAmount: real,
    maxRewardPerDay: real)

  datatype GlobalSettings = GlobalSettings(
    maxReferralsPerUser: real,
    cooldownPeriod: real,
    minimumUserAge: real,
    fraudDetection: bool,
    autoApproval: bool,
    campaignMode: bool)

  datatype Notifications = Notifications(
    emailNotifications: bool,
    smsNotifications: bool,
    pushNotifications: bool)

  datatype AdminSettings = AdminSettings(
    level1: LevelConfig,
    level2: LevelConfig,
    level3: LevelConfig,
    globalSettings: GlobalSettings,
    notifications: Notifications)

  /** A value handed to an update handler: every number input goes through
      `Number(...)` and every switch hands over a boolean. */
  datatype FieldValue = Num(n: real) | Flag(b: bool)

  // Field names and field access.

  datatype LevelKey = Level1 | Level2 | Level3

  datatype LevelField = Percentage | FixedAmount | IsPercentage | MinPurchaseAmount | MaxRewardPerDay

  datatype GlobalField = MaxReferralsPerUser | CooldownPeriod | MinimumUserAge | FraudDetection | AutoApproval | CampaignMode

  datatype NotificationField = EmailNotifications | SmsNotifications | PushNotifications

  /** A value of the kind the field holds; every call site of the handlers
      passes one. */
  predicate FitsLevel(f: LevelField, v: FieldValue)
  {
    if f == IsPercentage then v.Flag? else v.Num?
  }

  predicate FitsGlobal(f: GlobalField, v: FieldValue)
  {
    if f in {FraudDetection, AutoApproval, CampaignMode} then v.Flag? else v.Num?
  }

  /** `config[field]`. */
  function GetLevelField(c: LevelConfig, f: LevelField): (v: FieldValue)
    ensures FitsLevel(f, v)
  {
    match f
    case Percentage => Num(c.percentage)
    case FixedAmount => Num(c.fixedAmount)
    case IsPercentage => Flag(c.isPercentage)
    case MinPurchaseAmount => Num(c.minPurchaseAmount)
    case MaxRewardPerDay => Num(c.maxRewardPerDay)
  }

  /** `{ ...config, [field]: value }`. */
  function SetLevelField(c: LevelConfig, f: LevelField, v: FieldValue): LevelConfig
    requires FitsLevel(f, v)
  {
    match f
    case Percentage => c.(percentage := v.n)
    case FixedAmount => c.(fixedAmount := v.n)
    case IsPercentage => c.(isPercentage := v.b)
    case MinPurchaseAmount => c.(minPurchaseAmount := v.n)
    case MaxRewardPerDay => c.(maxRewardPerDay := v.n)
  }

  /** The spread-and-override sets the named field and leaves every other
      field as it was. */
  lemma SetLevelFieldFrame(c: LevelConfig, f: LevelField, v: FieldValue, g: LevelField)
    requires FitsLevel(f, v)
    ensures GetLevelField(SetLevelField(c, f, v), g) == if g == f then v else GetLevelField(c, g)
  {
  }

  function GetGlobalField(g: GlobalSettings, f: GlobalField): (v: FieldValue)
    ensures FitsGlobal(f, v)
  {
    match f
    case MaxReferralsPerUser => Num(g.maxReferralsPerUser)
    case CooldownPeriod => Num(g.cooldownPeriod)
    case MinimumUserAge => Num(g.minimumUserAge)
    case FraudDetection => Flag(g.fraudDetection)
    case AutoApproval => Flag(g.autoApproval)
    case CampaignMode => Flag(g.campaignMode)
  }

  function SetGlobalField(g: GlobalSettings, f: GlobalField, v: FieldValue): GlobalSettings
    requires FitsGlobal(f, v)
  {
    match f
    case MaxReferralsPerUser => g.(maxReferralsPerUser := v.n)
    case CooldownPeriod => g.(cooldownPeriod := v.n)
    case MinimumUserAge => g.(minimumUserAge := v.n)
    case FraudDetection => g.(fraudDetection := v.b)
    case AutoApproval => g.(autoApproval := v.b)
    case CampaignMode => g.(campaignMode := v.b)
  }

  lemma SetGlobalFieldFrame(g: GlobalSettings, f: GlobalField, v: FieldValue, h: GlobalField)
    requires FitsGlobal(f, v)
    ensures GetGlobalField(SetGlobalField(g, f, v), h) == if h == f then v else GetGlobalField(g, h)
  {
  }

  function GetNotification(n: Notifications, f: NotificationField): bool
  {
    match f
    case EmailNotifications => n.emailNotifications
    case SmsNotifications => n.smsNotifications
    case PushNotifications => n.pushNotifications
  }

  function SetNotification(n: Notifications, f: NotificationField, b: bool): Notifications
  {
    match f
    case EmailNotifications => n.(emailNotifications := b)
    case SmsNotifications => n.(smsNotifications := b)
    case PushNotifications => n.(pushNotifications := b)
  }

  lemma SetNotificationFrame(n: Notifications, f: NotificationField, b: bool, h: NotificationField)
    ensures GetNotification(SetNotification(n, f, b), h) == if h == f then b else GetNotification(n, h)
  {
  }

  function LevelOf(s: AdminSettings, k: LevelKey): LevelConfig
  {
    match k
    case Level1 => s.level1
    case Level2 => s.level2
    case Level3 => s.level3
  }

  // The three update handlers, as functions of the previous settings.

  /** `updateLevelConfig(level, field, value)`. */
  function UpdatedLevel(s: AdminSettings, k: LevelKey, f: LevelField, v: FieldValue): AdminSettings
    requires FitsLevel(f, v)
  {
    var c := SetLevelField(LevelOf(s, k), f, v);
    match k
    case Level1 => s.(level1 := c)
    case Level2 => s.(level2 := c)
    case Level3 => s.(level3 := c)
  }

  /** Only `settings[level][field]` changes: the other fields of that level,
      the other two levels, the global settings and the notifications stay
      as they were. */
  lemma UpdatedLevelFrame(s: AdminSettings, k: LevelKey, f: LevelField, v: FieldValue)
    requires FitsLevel(f, v)
    ensures GetLevelField(LevelOf(UpdatedLevel(s, k, f, v), k), f) == v
    ensures forall g :: g != f ==>
      GetLevelField(LevelOf(UpdatedLevel(s, k, f, v), k), g) == GetLevelField(LevelOf(s, k), g)
    ensures forall j :: j != k ==> LevelOf(UpdatedLevel(s, k, f, v), j) == LevelOf(s, j)
    ensures UpdatedLevel(s, k, f, v).globalSettings == s.globalSettings
    ensures UpdatedLevel(s, k, f, v).notifications == s.notifications
  {
    forall g {
      SetLevelFieldFrame(LevelOf(s, k), f, v, g);
    }
  }

  /** `updateGlobalSettings(field, value)`. */
  function UpdatedGlobal(s: AdminSettings, f: GlobalField, v: FieldValue): AdminSettings
    requires FitsGlobal(f, v)
  {
    s.(globalSettings := SetGlobalField(s.globalSettings, f, v))
  }

  /** Only that global field changes. */
  lemma UpdatedGlobalFrame(s: AdminSettings, f: GlobalField, v: FieldValue)
    requires FitsGlobal(f, v)
    ensures GetGlobalField(UpdatedGlobal(s, f, v).globalSettings, f) == v
    ensures forall h :: h != f ==>
      GetGlobalField(UpdatedGlobal(s, f, v).globalSettings, h) == GetGlobalField(s.globalSettings, h)
    ensures forall j :: LevelOf(UpdatedGlobal(s, f, v), j) == LevelOf(s, j)
    ensures UpdatedGlobal(s, f, v).notifications == s.notifications
  {
    forall h {
      SetGlobalFieldFrame(s.globalSettings, f, v, h);
    }
  }

  /** `updateNotificationSettings(field, value)`. */
  function UpdatedNotification(s: AdminSettings, f: NotificationField, b: bool): AdminSettings
  {
    s.(notifications := SetNotification(s.notifications, f, b))
  }

  /** Only that notification flag changes. */
  lemma UpdatedNotificationFrame(s: AdminSettings, f: NotificationField, b: bool)
    ensures GetNotification(UpdatedNotification(s, f, b).notifications, f) == b
    ensures forall h :: h != f ==>
      GetNotification(UpdatedNotification(s, f, b).notifications, h) == GetNotification(s.notifications, h)
    ensures forall j :: LevelOf(UpdatedNotification(s, f, b), j) == LevelOf(s, j)
    ensures UpdatedNotification(s, f, b).globalSettings == s.globalSettings
  {
    forall h {
      SetNotificationFrame(s.notifications, f, b, h);
    }
  }

  // The level card's two inputs.

  /** The field the value input shows and edits: the percentage under a
      percentage rule, the fixed amount otherwise. */
  function ValueField(c: LevelConfig): LevelField
  {
    if c.isPercentage then Percentage else FixedAmount
  }

  /** Typing `n` into a level's value input. */
  function ValueInput(s: AdminSettings, k: LevelKey, n: real): AdminSettings
  {
    UpdatedLevel(s, k, ValueField(LevelOf(s, k)), Num(n))
  }

  /** The input then shows `n`; the rule kind and the other amount are left
      alone. */
  lemma ValueInputEditsShownField(s: AdminSettings, k: LevelKey, n: real)
    ensures GetLevelField(LevelOf(ValueInput(s, k, n), k), ValueField(LevelOf(s, k))) == Num(n)
    ensures LevelOf(ValueInput(s, k, n), k).isPercentage == LevelOf(s, k).isPercentage
    ensures LevelOf(s, k).isPercentage ==>
      LevelOf(ValueInput(s, k, n), k).fixedAmount == LevelOf(s, k).fixedAmount
    ensures !LevelOf(s, k).isPercentage ==>
      LevelOf(ValueInput(s, k, n), k).percentage == LevelOf(s, k).percentage
  {
    UpdatedLevelFrame(s, k, ValueField(LevelOf(s, k)), Num(n));
    assert GetLevelField(LevelOf(ValueInput(s, k, n), k), IsPercentage) ==
           GetLevelField(LevelOf(s, k), IsPercentage);
    assert GetLevelField(LevelOf(ValueInput(s, k, n), k), FixedAmount) ==
           GetLevelField(LevelOf(s, k), FixedAmount) || !LevelOf(s, k).isPercentage;
    assert GetLevelField(LevelOf(ValueInput(s, k, n), k), Percentage) ==
           GetLevelField(LevelOf(s, k), Percentage) || LevelOf(s, k).isPercentage;
  }

  /** Choosing an option of the reward-type select. */
  function RewardTypeSelect(s: AdminSettings, k: LevelKey, option: string): AdminSettings
  {
    UpdatedLevel(s, k, IsPercentage, Flag(option == "percentage"))
  }

  /** The select sets the rule kind alone: both stored amounts survive, so
      switching back shows the earlier amount again. */
  lemma RewardTypeSelectKeepsAmounts(s: AdminSettings, k: LevelKey, option: string)
    ensures LevelOf(RewardTypeSelect(s, k, option), k).isPercentage <==> option == "percentage"
    ensures LevelOf(RewardTypeSelect(s, k, option), k).percentage == LevelOf(s, k).percentage
    ensures LevelOf(RewardTypeSelect(s, k, option), k).fixedAmount == LevelOf(s, k).fixedAmount
  {
    UpdatedLevelFrame(s, k, IsPercentage, Flag(option == "percentage"));
    assert GetLevelField(LevelOf(RewardTypeSelect(s, k, option), k), Percentage) ==
           GetLevelField(LevelOf(s, k), Percentage);
    assert GetLevelField(LevelOf(RewardTypeSelect(s, k, option), k), FixedAmount) ==
           GetLevelField(LevelOf(s, k), FixedAmount);
  }

  // Defaults.

  /** The settings the page opens with. */
  function InitialSettings(): AdminSettings
  {
    AdminSettings(
      LevelConfig(10.0, 50.0, true, 100.0, 1000.0),
      LevelConfig(5.0, 25.0, true, 100.0, 500.0),
      LevelConfig(2.5, 10.0, true, 100.0, 250.0),
      GlobalSettings(100.0, 24.0, 18.0, true, false, false),
      Notifications(true, false, true))
  }

  /** The settings "Reset to Defaults" writes, a literal of its own in the
      handler. */
  function ResetValues(): AdminSettings
  {
    AdminSettings(
      LevelConfig(10.0, 50.0, true, 100.0, 1000.0),
      LevelConfig(5.0, 25.0, true, 100.0, 500.0),
      LevelConfig(2.5, 10.0, true, 100.0, 250.0),
      GlobalSettings(100.0, 24.0, 18.0, true, false, false),
      Notifications(true, false, true))
  }

  /** The reset restores exactly the settings the page opened with, and
      every level starts as a percentage rule with rates 10, 5 and 2.5 and
      falling daily caps. */
  lemma ResetMatchesInitial()
    ensures ResetValues() == InitialSettings()
    ensures forall k :: LevelOf(InitialSettings(), k).isPercentage
    ensures LevelOf(InitialSettings(), Level1).percentage == 10.0
    ensures LevelOf(InitialSettings(), Level2).percentage == 5.0
    ensures LevelOf(InitialSettings(), Level3).percentage == 2.5
    ensures LevelOf(InitialSettings(), Level1).maxRewardPerDay > LevelOf(InitialSettings(), Level2).maxRewardPerDay
            > LevelOf(InitialSettings(), Level3).maxRewardPerDay
  {
  }

  // The page's state.

  class AdminConfigPage {
    var settings: AdminSettings
    var hasChanges: bool
    /** The settings last handed to the save call (the opening settings
        before any save). */
    ghost var lastSaved: AdminSettings

    /** With the flag down, the settings on screen are the saved ones: a
        disabled "Save Configuration" button loses nothing. Every method
        re-establishes it from its own effect alone (each raises the flag,
        or saves), so none needs it on entry. */
    ghost predicate Valid()
      reads this
    {
      !hasChanges ==> settings == lastSaved
    }

    constructor ()
      ensures settings == InitialSettings() && !hasChanges
      ensures Valid()
    {
      settings := InitialSettings();
      hasChanges := false;
      lastSaved := InitialSettings();
    }

    /** "Save Configuration" is enabled only with unsaved changes. */
    predicate SaveEnabled()
      reads this
    {
      hasChanges
    }

    method UpdateLevelConfig(k: LevelKey, f: LevelField, v: FieldValue)
      requires FitsLevel(f, v)
      modifies this
      ensures settings == UpdatedLevel(old(settings), k, f, v) && hasChanges
      ensures lastSaved == old(lastSaved) && Valid()
    {
      settings := UpdatedLevel(settings, k, f, v);
      hasChanges := true;
    }

    method UpdateGlobalSettings(f: GlobalField, v: FieldValue)
      requires FitsGlobal(f, v)
      modifies this
      ensures settings == UpdatedGlobal(old(settings), f, v) && hasChanges
      ensures lastSaved == old(lastSaved) && Valid()
    {
      settings := UpdatedGlobal(settings, f, v);
      hasChanges := true;
    }

    method UpdateNotificationSettings(f: NotificationField, b: bool)
      modifies this
      ensures settings == UpdatedNotification(old(settings), f, b) && hasChanges
      ensures lastSaved == old(lastSaved) && Valid()
    {
      settings := UpdatedNotification(settings, f, b);
      hasChanges := true;
    }

    /** `saveSettings`: hands the current settings over (the source only
        logs them) and lowers the flag; the settings are unchanged. */
    method SaveSettings() returns (saved: AdminSettings)
      modifies this
      ensures saved == old(settings) && settings == old(settings)
      ensures !hasChanges && lastSaved == saved && Valid()
    {
      saved := settings;
      lastSaved := saved;
      hasChanges := false;
    }

    /** `resetToDefaults`: the default literal replaces the settings and the
        flag goes up even when nothing differed, so a second reset leaves
        the same state as the first. */
    method ResetToDefaults()
      modifies this
      ensures settings == ResetValues() && hasChanges
      ensures lastSaved == old(lastSaved) && Valid()
    {
      settings := ResetValues();
      hasChanges := true;
    }

    /** The value input's change handler. */
    method OnValueInput(k: LevelKey, n: real)
      modifies this
      ensures settings == ValueInput(old(settings), k, n) && hasChanges
      ensures lastSaved == old(lastSaved) && Valid()
    {
      var field := if LevelOf(settings, k).isPercentage then Percentage else FixedAmount;
      UpdateLevelConfig(k, field, Num(n));
    }

    /** The reward-type select's change handler. */
    method OnRewardTypeSelect(k: LevelKey, option: string)
      modifies this
      ensures settings == RewardTypeSelect(old(settings), k, option) && hasChanges
      ensures lastSaved == old(lastSaved) && Valid()
    {
      UpdateLevelConfig(k, IsPercentage, Flag(option == "percentage"));
    }
  }
}
