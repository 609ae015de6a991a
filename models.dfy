/**
 * The records the bot keeps in its database, one datatype per table row.
 *
 * Times are whole seconds on one clock; created_at / updated_at columns and
 * the plan's floating-point price are not part of the model.
 */
module Models {
  import opened Outcomes

  /** A VPN server the bot provisions clients on. */
  datatype Server = Server(id: int, ip: string, port: int, sshUser: string, sshPassword: string,
                           maxClients: int, currentClients: int, isActive: bool)

  /** A subscription plan; duration is in days. */
  datatype Plan = Plan(id: int, name: string, description: string, duration: int, isActive: bool)

  /** A Telegram user of the bot. */
  datatype User = User(id: int, telegramId: int, username: string, firstName: string,
                       lastName: string, isAdmin: bool)

  /**
   * A user's subscription on one server. status holds the strings the code
   * writes ("active", "expired", "blocked", "revoked", ...).
   */
  datatype Subscription = Subscription(id: int, userId: int, serverId: int, planId: int,
                                       startDate: int, endDate: int, status: string,
                                       configFilePath: string, dataUsage: int,
                                       lastConnectionAt: Option<int>)

  const Active := "active"
  const Expired := "expired"
}
