/** The nine reminder types and their fixed data (src/lib/reminders.ts). */
module ReminderCatalog {

  datatype ReminderType =
    | DailyStudy | HomeworkDue | StreakProtection | MissedSession | WeeklySummary
    | StruggleAlert | ExamCountdown | Achievement | RewardRedeemed

  /** REMINDER_PRIORITY_RANK: lower means higher priority. */
  function PriorityRank(t: ReminderType): nat {
    match t
    case MissedSession => 1
    case StruggleAlert => 2
    case HomeworkDue => 3
    case ExamCountdown => 4
    case StreakProtection => 5
    case DailyStudy => 6
    case WeeklySummary => 7
    case Achievement => 8
    case RewardRedeemed => 9
  }

  const BY_PRIORITY: seq<ReminderType> := [
    MissedSession, StruggleAlert, HomeworkDue, ExamCountdown, StreakProtection, DailyStudy, WeeklySummary, Achievement,
    RewardRedeemed
  ]

  /** The rank is the place in the order of priority. */
  lemma RankIsPlace(t: ReminderType)
    ensures 1 <= PriorityRank(t) <= |BY_PRIORITY| && BY_PRIORITY[PriorityRank(t) - 1] == t
  {
  }

  const ALL_TYPES: set<ReminderType> := {
    DailyStudy, HomeworkDue, StreakProtection, MissedSession, WeeklySummary,
    StruggleAlert, ExamCountdown, Achievement, RewardRedeemed
  }

  /** The slug that names a type in the interface. */
  function SlugOf(t: ReminderType): string {
    match t
    case DailyStudy => "daily-study"
    case HomeworkDue => "homework-due"
    case StreakProtection => "streak-protection"
    case MissedSession => "missed-session"
    case WeeklySummary => "weekly-summary"
    case StruggleAlert => "struggle-alert"
    case ExamCountdown => "exam-countdown"
    case Achievement => "achievement"
    case RewardRedeemed => "reward-redeemed"
  }
}
