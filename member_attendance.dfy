/** The member's attendance screen: open the scanner, capture a decoded
    payload, and confirm it as an attendance claim in a separate step. */
module MemberAttendance {
  import opened Wrappers
  import opened Text
  import Auth

  /** What the scanner passes to its scan callback: nothing, a bare string,
      or a result object whose `text` is the decoded payload. */
  datatype ScanData = NoData | Plain(s: string) | Decoded(text: string)

  /** JavaScript truthiness of the callback argument: `null` and the empty
      string are falsy; every object is truthy. */
  predicate Truthy(d: ScanData)
  {
    match d
    case NoData => false
    case Plain(s) => s != ""
    case Decoded(_) => true
  }

  /** `typeof data === 'string' ? data : data.text`. */
  function ScannedText(d: ScanData): string
    requires d != NoData
  {
    match d
    case Plain(s) => s
    case Decoded(t) => t
  }

  /** JavaScript truthiness of `scannedData` (`null` and `''` are falsy). */
  predicate Present(s: Option<string>)
  {
    s.Some? && s.value != ""
  }

  const DeniedMessage: string := "Camera access denied. Please allow camera permissions in your browser settings."
  const NoCameraMessage: string := "No camera found on this device."
  const CameraErrorMessage: string := "Camera error. Please check permissions and try again."
  const ScanFirstMessage: string := "Please scan the QR code first"
  const MarkedMessage: string := "Attendance marked successfully!"
  const RejectedMessage: string := "Already marked attendance today or invalid QR code"

  /** A notification shown to the member. */
  datatype Toast = Success(message: string) | Error(message: string)

  /** The three categories of camera failure, by the error's `name`. */
  function CameraFailureMessage(name: string): (m: string)
    ensures m == DeniedMessage <==> name == "NotAllowedError"
    ensures m == NoCameraMessage <==> name == "NotFoundError"
    ensures m == CameraErrorMessage <==> name != "NotAllowedError" && name != "NotFoundError"
  {
    if name == "NotAllowedError" then DeniedMessage
    else if name == "NotFoundError" then NoCameraMessage
    else CameraErrorMessage
  }

  /** `Math.round(attendance / 20 * 100)`, the percentage of a 20-session
      term, which for a whole number of sessions is five per session. */
  function AttendanceRate(attendance: nat): (r: int)
    ensures r == 5 * attendance
  {
    RoundDiv(attendance * 100, 20)
  }

  class AttendanceScreen {
    const auth: Auth.AuthProvider
    var showScanner: bool
    /** The payload awaiting confirmation (`null` as `None`). */
    var scannedData: Option<string>
    var isProcessing: bool

    constructor (auth: Auth.AuthProvider)
      ensures this.auth == auth
      ensures !showScanner && scannedData == None && !isProcessing
    {
      this.auth := auth;
      showScanner := false;
      scannedData := None;
      isProcessing := false;
    }

    /** "Open QR Scanner". */
    method OpenScanner()
      modifies this`showScanner
      ensures showScanner
    {
      showScanner := true;
    }

    /** The scan callback. A truthy payload arriving while no scan is in
        progress is kept for confirmation and the scanner closes; any other
        call changes nothing. It never touches the session or the ledger. */
    method HandleScan(data: ScanData)
      modifies this`showScanner, this`scannedData, this`isProcessing
      ensures Truthy(data) && !old(isProcessing) ==>
        scannedData == Some(ScannedText(data)) && !showScanner && !isProcessing
      ensures !(Truthy(data) && !old(isProcessing)) ==>
        scannedData == old(scannedData) && showScanner == old(showScanner) && isProcessing == old(isProcessing)
      ensures unchanged(auth)
    {
      if Truthy(data) && !isProcessing {
        isProcessing := true;
        scannedData := Some(ScannedText(data));
        showScanner := false;
        isProcessing := false;
      }
    }

    /** The scanner's error callback: close the scanner and report the
        failure by category. The pending payload and the claim state are
        left alone. */
    method HandleError(name: string) returns (toast: Toast)
      modifies this`showScanner
      ensures !showScanner
      ensures toast == Error(CameraFailureMessage(name))
      ensures unchanged(auth)
    {
      showScanner := false;
      toast := Error(CameraFailureMessage(name));
    }

    /** "Confirm Attendance": without a payload, report it and claim
        nothing; otherwise claim with the payload as session id and clear
        the payload only if the claim was accepted. The two instants are
        the clock readings the claim makes. */
    method HandleMarkAttendance(checkedAt: Auth.Instant, stampedAt: Auth.Instant) returns (toast: Toast)
      requires auth.Valid()
      modifies this`scannedData, auth
      ensures auth.Valid()
      ensures !Present(old(scannedData)) ==>
        toast == Error(ScanFirstMessage) && scannedData == old(scannedData) &&
        auth.user == old(auth.user) && auth.ledger == old(auth.ledger)
      ensures Present(old(scannedData)) ==>
        var c := Auth.Claim(old(auth.user), old(scannedData).value, checkedAt, stampedAt);
        && (c.Accepted? ==>
              toast == Success(MarkedMessage) && scannedData == None &&
              auth.user == Some(c.user) && auth.ledger == old(auth.ledger) + [c.record])
        && (c.Rejected? ==>
              toast == Error(RejectedMessage) && scannedData == old(scannedData) &&
              auth.user == old(auth.user) && auth.ledger == old(auth.ledger))
    {
      if !Present(scannedData) {
        return Error(ScanFirstMessage);
      }
      var success := auth.MarkAttendance(scannedData.value, checkedAt, stampedAt);
      if success {
        toast := Success(MarkedMessage);
        scannedData := None;
      } else {
        toast := Error(RejectedMessage);
      }
    }

    /** "Cancel" closes the scanner. */
    method Cancel()
      modifies this`showScanner
      ensures !showScanner
      ensures unchanged(auth)
    {
      showScanner := false;
    }

    /** "Scan Again" drops the pending payload. */
    method ScanAgain()
      modifies this`scannedData
      ensures scannedData == None
      ensures unchanged(auth)
    {
      scannedData := None;
    }
  }

  /** The in-flight flag is set and cleared within one callback, so it is
      never set when the next decode arrives: two decodes in a row are both
      taken, and the later payload replaces the earlier one. */
  method TwoScansInARow(screen: AttendanceScreen, d1: ScanData, d2: ScanData)
    requires !screen.isProcessing && Truthy(d1) && Truthy(d2)
    modifies screen
    ensures screen.scannedData == Some(ScannedText(d2)) && !screen.isProcessing
  {
    screen.HandleScan(d1);
    screen.HandleScan(d2);
  }

  /** Scanning alone never claims: a confirmed claim needs a scan and then an
      explicit confirmation, and a confirmation on a day already claimed by
      the session user keeps the payload and leaves the ledger as it was. */
  method ScanThenConfirm(screen: AttendanceScreen, d: ScanData, checkedAt: Auth.Instant, stampedAt: Auth.Instant) returns (toast: Toast)
    requires screen.auth.Valid() && !screen.isProcessing && Truthy(d) && ScannedText(d) != ""
    modifies screen, screen.auth
    ensures screen.auth.Valid()
    ensures toast.Success? <==> Auth.Claim(old(screen.auth.user), ScannedText(d), checkedAt, stampedAt).Accepted?
    ensures toast.Error? ==> screen.scannedData == Some(ScannedText(d)) && screen.auth.ledger == old(screen.auth.ledger)
  {
    screen.HandleScan(d);
    assert screen.auth.user == old(screen.auth.user);
    toast := screen.HandleMarkAttendance(checkedAt, stampedAt);
  }
}
