/**
 * Tickets (section 5.3 of RFC 4120) as built in messages/src/tickets: the
 * ticket constructor, the transited encoding and the by-value builder of the
 * encrypted ticket part. Getters are the datatypes' destructors.
 */
module Tickets {
  import opened Wrappers
  import opened Flags
  import opened KerberosTypes

  /** `Ticket::new` through `TicketInner::new`: ticket version 5. */
  function NewTicket(realm: Realm, sname: PrincipalName, encPart: EncryptedData): (t: Ticket)
    ensures t.tktVno == 5
    ensures t.realm == realm && t.sname == sname && t.encPart == encPart
  {
    Ticket(5, realm, sname, encPart)
  }

  /** `TransitedEncoding::empty`: no transited realms. */
  function EmptyTransited(trType: int): (t: TransitedEncoding)
    ensures t.trType == trType && t.contents == Raw([])
  {
    TransitedEncoding(trType, Raw([]))
  }

  /** `TransitedEncoding::new`. */
  function NewTransited(trType: int, contents: Octets): (t: TransitedEncoding)
    ensures t.trType == trType && t.contents == contents
  {
    TransitedEncoding(trType, contents)
  }

  // ------------------------------------------------------ EncTicketPartBuilder

  /** `EncTicketPartBuilder`: the fields of the part, held until `build`. */
  datatype EncTicketPartBuilder = EncTicketPartBuilder(
    flags: KerberosFlags,
    key: EncryptionKey,
    crealm: Realm,
    cname: PrincipalName,
    transited: TransitedEncoding,
    authtime: Time,
    starttime: Option<Time>,
    endtime: Time,
    renewTill: Option<Time>,
    caddr: Option<seq<HostAddress>>,
    authorizationData: Option<seq<ADEntry>>)

  /** `EncTicketPartBuilder::new`: the seven required fields, every optional field `None`. */
  function NewEncTicketPartBuilder(
    flags: KerberosFlags, key: EncryptionKey, crealm: Realm, cname: PrincipalName,
    authtime: Time, endtime: Time, transited: TransitedEncoding): (b: EncTicketPartBuilder)
    ensures b.flags == flags && b.key == key && b.crealm == crealm && b.cname == cname
    ensures b.authtime == authtime && b.endtime == endtime && b.transited == transited
    ensures b.starttime.None? && b.renewTill.None? && b.caddr.None? && b.authorizationData.None?
  {
    EncTicketPartBuilder(flags, key, crealm, cname, transited, authtime, None, endtime, None, None, None)
  }

  /** The argument of one setter call: which setter, and the value passed. */
  datatype TicketPartSetter =
    | SetFlags(flags: KerberosFlags)
    | SetKey(key: EncryptionKey)
    | SetCrealm(crealm: Realm)
    | SetCname(cname: PrincipalName)
    | SetTransited(transited: TransitedEncoding)
    | SetAuthtime(authtime: Time)
    | SetStarttime(starttime: Time)
    | SetEndtime(endtime: Time)
    | SetRenewTill(renewTill: Time)
    | SetCaddr(caddr: seq<HostAddress>)
    | SetAuthorizationData(authorizationData: seq<ADEntry>)

  /** The setters of `EncTicketPartBuilder`: each replaces its field; an optional field receives `Some`. */
  function ApplySetter(b: EncTicketPartBuilder, s: TicketPartSetter): EncTicketPartBuilder {
    match s
    case SetFlags(v) => b.(flags := v)
    case SetKey(v) => b.(key := v)
    case SetCrealm(v) => b.(crealm := v)
    case SetCname(v) => b.(cname := v)
    case SetTransited(v) => b.(transited := v)
    case SetAuthtime(v) => b.(authtime := v)
    case SetStarttime(v) => b.(starttime := Some(v))
    case SetEndtime(v) => b.(endtime := v)
    case SetRenewTill(v) => b.(renewTill := Some(v))
    case SetCaddr(v) => b.(caddr := Some(v))
    case SetAuthorizationData(v) => b.(authorizationData := Some(v))
  }

  /** The position of the field a setter writes, in declaration order. */
  function SetterField(s: TicketPartSetter): nat {
    match s
    case SetFlags(_) => 0
    case SetKey(_) => 1
    case SetCrealm(_) => 2
    case SetCname(_) => 3
    case SetTransited(_) => 4
    case SetAuthtime(_) => 5
    case SetStarttime(_) => 6
    case SetEndtime(_) => 7
    case SetRenewTill(_) => 8
    case SetCaddr(_) => 9
    case SetAuthorizationData(_) => 10
  }

  /** Two builders hold the same value in field `i`. */
  predicate SameField(a: EncTicketPartBuilder, b: EncTicketPartBuilder, i: nat) {
    match i
    case 0 => a.flags == b.flags
    case 1 => a.key == b.key
    case 2 => a.crealm == b.crealm
    case 3 => a.cname == b.cname
    case 4 => a.transited == b.transited
    case 5 => a.authtime == b.authtime
    case 6 => a.starttime == b.starttime
    case 7 => a.endtime == b.endtime
    case 8 => a.renewTill == b.renewTill
    case 9 => a.caddr == b.caddr
    case 10 => a.authorizationData == b.authorizationData
    case _ => true
  }

  /** The builder holds the value a setter passed, wrapped in `Some` for an optional field. */
  predicate HoldsSetter(b: EncTicketPartBuilder, s: TicketPartSetter) {
    match s
    case SetFlags(v) => b.flags == v
    case SetKey(v) => b.key == v
    case SetCrealm(v) => b.crealm == v
    case SetCname(v) => b.cname == v
    case SetTransited(v) => b.transited == v
    case SetAuthtime(v) => b.authtime == v
    case SetStarttime(v) => b.starttime == Some(v)
    case SetEndtime(v) => b.endtime == v
    case SetRenewTill(v) => b.renewTill == Some(v)
    case SetCaddr(v) => b.caddr == Some(v)
    case SetAuthorizationData(v) => b.authorizationData == Some(v)
  }

  /** Each setter stores its value in its own field and leaves every other field as it was. */
  lemma SetterChangesOnlyItsField(b: EncTicketPartBuilder, s: TicketPartSetter, i: nat)
    ensures HoldsSetter(ApplySetter(b, s), s)
    ensures i != SetterField(s) ==> SameField(ApplySetter(b, s), b, i)
  {
  }

  /** `EncTicketPartBuilder::build`: every builder field moves into the part. */
  function BuildEncTicketPart(b: EncTicketPartBuilder): (p: EncTicketPart)
    ensures p.flags == b.flags && p.key == b.key && p.crealm == b.crealm && p.cname == b.cname
    ensures p.transited == b.transited && p.authtime == b.authtime && p.starttime == b.starttime
    ensures p.endtime == b.endtime && p.renewTill == b.renewTill && p.caddr == b.caddr
    ensures p.authorizationData == b.authorizationData
  {
    EncTicketPart(b.flags, b.key, b.crealm, b.cname, b.transited, b.authtime, b.starttime,
                  b.endtime, b.renewTill, b.caddr, b.authorizationData)
  }

  /** A part built without optional setters reports every optional field absent. */
  lemma BuildWithoutOptionals(
    flags: KerberosFlags, key: EncryptionKey, crealm: Realm, cname: PrincipalName,
    authtime: Time, endtime: Time, transited: TransitedEncoding)
    ensures var p := BuildEncTicketPart(NewEncTicketPartBuilder(flags, key, crealm, cname, authtime, endtime, transited));
            p.starttime.None? && p.renewTill.None? && p.caddr.None? && p.authorizationData.None?
            && p.authtime == authtime && p.endtime == endtime
  {
  }
}
