/**
 * The legacy intake tables (app/models.py) as far as the intake loop and the metrics read
 * them: `Ticket` rows as values, `EmailConfig` as an object whose `last_sync` the sync
 * manager sets in place.
 */
module TicketModel {
  import opened Wrappers

  /** A `tickets` row. `email_id` holds the original message id and may be NULL. */
  datatype Ticket = Ticket(
    date: int,
    mainCategory: string,
    subCategory: string,
    urgencyLevel: string,
    sentimentScore: real,
    content: string,
    emailId: Option<string>,
    subject: string,
    fromAddress: string,
    toAddress: string)

  /** An `email_configs` row. */
  class EmailConfig {
    const email: string
    const password: string
    const imapServer: string
    const imapPort: int
    var lastSync: Option<int>
    var isActive: bool

    /** A configuration as inserted: port 993 unless given, active, never synced. */
    constructor (email: string, password: string, imapServer: string, imapPort: Option<int>)
      ensures this.email == email && this.password == password && this.imapServer == imapServer
      ensures this.imapPort == imapPort.GetOr(993)
      ensures isActive && lastSync.None?
    {
      this.email := email;
      this.password := password;
      this.imapServer := imapServer;
      this.imapPort := imapPort.GetOr(993);
      lastSync := None;
      isActive := true;
    }
  }
}
