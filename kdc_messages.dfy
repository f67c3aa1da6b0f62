/**
 * The AS and TGS exchange messages of messages/src/spec_as_tgs_exchange
 * (sections 5.4.1 and 5.4.2 of RFC 4120): the shared KDC-REQ and KDC-REP
 * constructors and the four wrappers that fix the message type. Getters are
 * the datatypes' destructors.
 */
module KdcMessages {
  import opened Wrappers
  import opened Constants
  import opened KerberosTypes
  import opened Codec

  /** `KdcReq::new`: pvno 5; the other fields as given. */
  function NewKdcReq(msgType: int, padata: Option<seq<PaData>>, reqBody: KdcReqBody): (r: KdcReq)
    ensures r.pvno == 5 && r.msgType == msgType && r.padata == padata && r.reqBody == reqBody
  {
    KdcReq(5, msgType, padata, reqBody)
  }

  /** `AsReq::new`: a KDC-REQ of message type 10 (KRB_AS_REQ). */
  function NewAsReq(padata: Option<seq<PaData>>, reqBody: KdcReqBody): (r: KdcReq)
    ensures r.pvno == 5 && r.msgType == 10 && r.padata == padata && r.reqBody == reqBody
  {
    NewKdcReq(0x0A, padata, reqBody)
  }

  /** `TgsReq::new`: a KDC-REQ of message type 12 (KRB_TGS_REQ). */
  function NewTgsReq(padata: Option<seq<PaData>>, reqBody: KdcReqBody): (r: KdcReq)
    ensures r.pvno == 5 && r.msgType == 12 && r.padata == padata && r.reqBody == reqBody
  {
    NewKdcReq(0x0C, padata, reqBody)
  }

  /** `KdcRep::new`: pvno 5; the other fields as given. */
  function NewKdcRep(
    msgType: int, padata: Option<seq<PaData>>, crealm: Realm, cname: PrincipalName,
    ticket: Ticket, encPart: EncryptedData): (r: KdcRep)
    ensures r.pvno == 5 && r.msgType == msgType && r.padata == padata
    ensures r.crealm == crealm && r.cname == cname && r.ticket == ticket && r.encPart == encPart
  {
    KdcRep(5, msgType, padata, crealm, cname, ticket, encPart)
  }

  /** `AsRep::new`: a KDC-REP of message type 11 (KRB_AS_REP). */
  function NewAsRep(
    padata: Option<seq<PaData>>, crealm: Realm, cname: PrincipalName, ticket: Ticket, encPart: EncryptedData): (r: KdcRep)
    ensures r.pvno == 5 && r.msgType == 11 && r.padata == padata
    ensures r.crealm == crealm && r.cname == cname && r.ticket == ticket && r.encPart == encPart
  {
    NewKdcRep(0x0B, padata, crealm, cname, ticket, encPart)
  }

  /** `TgsRep::new`: a KDC-REP of message type 13 (KRB_TGS_REP). */
  function NewTgsRep(
    padata: Option<seq<PaData>>, crealm: Realm, cname: PrincipalName, ticket: Ticket, encPart: EncryptedData): (r: KdcRep)
    ensures r.pvno == 5 && r.msgType == 13 && r.padata == padata
    ensures r.crealm == crealm && r.cname == cname && r.ticket == ticket && r.encPart == encPart
  {
    NewKdcRep(0x0D, padata, crealm, cname, ticket, encPart)
  }

  /**
   * Each exchange message is sent under the APPLICATION tag that equals its
   * message type, as section 5.10 of RFC 4120 requires.
   */
  lemma ExchangeTagsMatchMessageTypes(padata: Option<seq<PaData>>, body: KdcReqBody, crealm: Realm,
                                      cname: PrincipalName, ticket: Ticket, encPart: EncryptedData)
    ensures OuterTag(DerAsReq(NewAsReq(padata, body))) == Application(NewAsReq(padata, body).msgType)
    ensures OuterTag(DerTgsReq(NewTgsReq(padata, body))) == Application(NewTgsReq(padata, body).msgType)
    ensures OuterTag(DerAsRep(NewAsRep(padata, crealm, cname, ticket, encPart)))
              == Application(NewAsRep(padata, crealm, cname, ticket, encPart).msgType)
    ensures OuterTag(DerTgsRep(NewTgsRep(padata, crealm, cname, ticket, encPart)))
              == Application(NewTgsRep(padata, crealm, cname, ticket, encPart).msgType)
  {
  }
}
