/** The delivery channels of internal/notification/email.go and sms.go.

    The global configuration the senders read at call time is passed to `Send`
    as `Settings`. The SMTP dialer is a foreign call: `Transport` records every
    message handed to it, and an oracle decides each call's outcome. */
module Senders {
  import opened Wrappers

  /** The parts of the configuration the senders consult. */
  datatype Settings = Settings(featureFlags: map<string, bool>, smtpFrom: string)

  const EmailFlag := "enable_email"
  const SmsFlag := "enable_sms"

  /** `flags[name]` in Go: an absent key reads as false. */
  predicate FlagOn(flags: map<string, bool>, name: string) {
    name in flags && flags[name]
  }

  datatype Part = Part(contentType: string, body: string)

  /** The content of a gomail message: its headers and its body parts. */
  datatype Mail = Mail(headers: map<string, seq<string>>, parts: seq<Part>)

  /** The message Send composes from the configured From and its arguments. */
  function Composed(from: string, to: string, subject: string, body: string): Mail {
    Mail(map["From" := [from], "To" := [to], "Subject" := [subject]], [Part("text/html", body)])
  }

  /** A gomail message under construction. */
  class MailMessage {
    var headers: map<string, seq<string>>
    var parts: seq<Part>

    function Snapshot(): Mail
      reads this
    {
      Mail(headers, parts)
    }

    constructor ()
      ensures Snapshot() == Mail(map[], [])
    {
      headers := map[];
      parts := [];
    }

    /** Sets (replaces) one header. */
    method SetHeader(field: string, value: string)
      modifies this
      ensures headers == old(headers)[field := [value]] && parts == old(parts)
    {
      headers := headers[field := [value]];
    }

    /** Replaces all body parts by one. */
    method SetBody(contentType: string, body: string)
      modifies this
      ensures parts == [Part(contentType, body)] && headers == old(headers)
    {
      parts := [Part(contentType, body)];
    }
  }

  /** The SMTP dialer. `sent` lists every message handed to DialAndSend;
      `fate` gives the outcome of the call with that index and message. */
  class Transport {
    var sent: seq<Mail>
    const fate: (nat, Mail) -> Option<string>

    constructor (fate: (nat, Mail) -> Option<string>)
      ensures sent == [] && this.fate == fate
    {
      sent := [];
      this.fate := fate;
    }

    method DialAndSend(m: MailMessage) returns (err: Option<string>)
      modifies this
      ensures sent == old(sent) + [m.Snapshot()]
      ensures err == fate(|old(sent)|, m.Snapshot())
    {
      err := fate(|sent|, m.Snapshot());
      sent := sent + [m.Snapshot()];
    }
  }

  /** What EmailSender.Send does to the dialer's log, and what it returns. */
  function EmailEffect(settings: Settings, fate: (nat, Mail) -> Option<string>, sent: seq<Mail>,
                       to: string, subject: string, body: string): (r: (seq<Mail>, Option<string>))
    ensures !FlagOn(settings.featureFlags, EmailFlag) ==> r == (sent, None)
    ensures FlagOn(settings.featureFlags, EmailFlag) ==>
              r.0 == sent + [Composed(settings.smtpFrom, to, subject, body)]
    ensures r.1.None? <==>
              !FlagOn(settings.featureFlags, EmailFlag) || fate(|sent|, Composed(settings.smtpFrom, to, subject, body)).None?
    ensures r.1.Some? ==>
              r.1.value == "failed to send email: " + fate(|sent|, Composed(settings.smtpFrom, to, subject, body)).value
  {
    if !FlagOn(settings.featureFlags, EmailFlag) then (sent, None)
    else
      var m := Composed(settings.smtpFrom, to, subject, body);
      match fate(|sent|, m)
      case None => (sent + [m], None)
      case Some(cause) => (sent + [m], Some("failed to send email: " + cause))
  }

  class EmailSender {
    const dialer: Transport

    constructor (dialer: Transport)
      ensures this.dialer == dialer
    {
      this.dialer := dialer;
    }

    method Send(settings: Settings, to: string, subject: string, body: string) returns (err: Option<string>)
      modifies dialer
      ensures (dialer.sent, err) == EmailEffect(settings, dialer.fate, old(dialer.sent), to, subject, body)
    {
      if !FlagOn(settings.featureFlags, EmailFlag) {
        return None;
      }
      var m := new MailMessage();
      m.SetHeader("From", settings.smtpFrom);
      m.SetHeader("To", to);
      m.SetHeader("Subject", subject);
      m.SetBody("text/html", body);
      assert m.Snapshot() == Composed(settings.smtpFrom, to, subject, body);
      var cause := dialer.DialAndSend(m);
      if cause.Some? {
        return Some("failed to send email: " + cause.value);
      }
      return None;
    }
  }

  /** What the SMS sender logs: a skipped send, or a mock send. */
  datatype SmsLog = Skipped(to: string) | MockSent(to: string, message: string)

  /** The SMS sender: no state, and no transport behind it. */
  class SMSSender {
    constructor ()
    {
    }

    method Send(settings: Settings, to: string, message: string) returns (err: Option<string>, ghost log: SmsLog)
      ensures err == None
      ensures log == if FlagOn(settings.featureFlags, SmsFlag) then MockSent(to, message) else Skipped(to)
    {
      if !FlagOn(settings.featureFlags, SmsFlag) {
        return None, Skipped(to);
      }
      return None, MockSent(to, message);
    }
  }
}
