/** Intent, domain and rank of a connection request. */
module ConnectionPolicy {
  datatype Operation =
    | CaptureSwitch | NodeSwitch | CoreSwitch | SourceMutation
    | PolicyChange | CoreUpdate | Recovery | SelfHeal

  datatype Origin = User | Tray | Scheduler | SelfHealing | Startup | Shutdown

  datatype Request = Request(id: string, operation: Operation, origin: Origin, faultDomain: string)

  datatype Intent = Safety | Interactive | Recovering | StartingUp | Background

  datatype Domain = Capture | Routing | Core | Source

  datatype Policy = Policy(intent: Intent, domain: Domain, rank: nat)

  /** For a valid origin the origin alone decides; the operation is never looked at. */
  function IntentFor(r: Request): Intent {
    match r.origin
    case Shutdown => Safety
    case User => Interactive
    case Tray => Interactive
    case SelfHealing => Recovering
    case Startup => StartingUp
    case Scheduler => Background
  }

  function IntentRank(i: Intent): nat {
    match i
    case Safety => 500
    case Interactive => 400
    case Recovering => 300
    case StartingUp => 200
    case Background => 100
  }

  predicate Contains(s: string, part: string) {
    exists i :: 0 <= i <= |s| && part <= s[i..]
  }

  /** The domain named by the text of a fault, already trimmed and in lower case. */
  function FaultDomain(text: string): Domain {
    if Contains(text, "core") then Core
    else if Contains(text, "node") || Contains(text, "outbound")
         || Contains(text, "policy") || Contains(text, "runtime") then Routing
    else if Contains(text, "source") || Contains(text, "subscription") then Source
    else Capture
  }

  function DomainFor(fold: string -> string, r: Request): Domain {
    match r.operation
    case CaptureSwitch => Capture
    case NodeSwitch => Routing
    case PolicyChange => Routing
    case CoreSwitch => Core
    case CoreUpdate => Core
    case SourceMutation => Source
    case Recovery => FaultDomain(fold(r.faultDomain))
    case SelfHeal => FaultDomain(fold(r.faultDomain))
  }

  function PolicyFor(fold: string -> string, r: Request): Policy {
    var intent := IntentFor(r);
    Policy(intent, DomainFor(fold, r), IntentRank(intent))
  }
}
