/** The database identifiers the payouts code passes around. */
module Ids {
  /** A project id (`mods.id`); the analytics store keeps it unsigned. */
  type ProjectId = nat

  /** A user id (`users.id`, a signed 64-bit integer). */
  type UserId = int
}
