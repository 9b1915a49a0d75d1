/** The SMS transport, seen only at its boundary: every message handed to it
    is recorded in a ghost log. Delivery metadata and failures are not
    modelled. */
module SmsTransport {

  /** One text message: sender, recipient and body. */
  datatype Sms = Sms(from: string, to: string, body: string)

  class SmsService {
    /** The configured sender number. */
    const phoneNumber: string

    /** Every message sent so far, oldest first. */
    ghost var sent: seq<Sms>

    constructor(phoneNumber: string)
      ensures this.phoneNumber == phoneNumber && sent == []
    {
      this.phoneNumber := phoneNumber;
      sent := [];
    }

    /** `sendMessage(phone, message)`. */
    method SendMessage(phone: string, message: string)
      modifies this
      ensures sent == old(sent) + [Sms(phoneNumber, phone, message)]
    {
      sent := sent + [Sms(phoneNumber, phone, message)];
    }
  }
}
