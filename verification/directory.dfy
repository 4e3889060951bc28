/** The account and ward directory: flat, append-only lists of users and wards. */
module Directory {
  import opened Wrappers

  datatype Role = Admin | Assessor | WardStaff

  /** A user; `wardId` is the ward a Ward Staff user belongs to (None when absent). */
  datatype User = User(id: string, name: string, role: Role, wardId: Option<string>)

  datatype Ward = Ward(id: string, name: string)

  /** The decimal digit character for `d`. */
  function DigitChar(d: nat): (c: char)
    requires d < 10
    ensures '0' <= c <= '9'
    ensures c as int - '0' as int == d
  {
    (('0' as int) + d) as char
  }

  predicate IsDigits(s: string)
  {
    forall i :: 0 <= i < |s| ==> '0' <= s[i] <= '9'
  }

  /** The decimal rendering of a timestamp, as a template literal prints a non-negative integer. */
  function DecimalString(n: nat): (s: string)
    ensures |s| >= 1
    ensures IsDigits(s)
    decreases n
  {
    if n < 10 then [DigitChar(n)] else DecimalString(n / 10) + [DigitChar(n % 10)]
  }

  /** Independent reading of a digit string back to the number it denotes. */
  function DecimalValue(s: string): nat
    requires IsDigits(s)
  {
    if s == [] then 0 else DecimalValue(s[..|s| - 1]) * 10 + (s[|s| - 1] as int - '0' as int)
  }

  /** Printing a timestamp in decimal loses nothing: reading it back gives the timestamp. */
  lemma {:induction false} DecimalRoundTrip(n: nat)
    ensures DecimalValue(DecimalString(n)) == n
    decreases n
  {
    var s := DecimalString(n);
    if n >= 10 {
      DecimalRoundTrip(n / 10);
      assert s[..|s| - 1] == DecimalString(n / 10);
    }
  }

  /** The id a ward created at time `now` gets: `ward-<now>`. */
  function WardIdAt(now: nat): string
  {
    "ward-" + DecimalString(now)
  }

  /** Wards created at different times get different ids. */
  lemma WardIdAtInjective(t1: nat, t2: nat)
    ensures WardIdAt(t1) == WardIdAt(t2) ==> t1 == t2
  {
    if WardIdAt(t1) == WardIdAt(t2) {
      assert DecimalString(t1) == WardIdAt(t1)[5..];
      assert DecimalString(t2) == WardIdAt(t2)[5..];
      DecimalRoundTrip(t1);
      DecimalRoundTrip(t2);
    }
  }

  /** `addWard`: appends one ward named `name` with the id derived from the clock reading `now`. */
  function AddWard(wards: seq<Ward>, name: string, now: nat): (r: seq<Ward>)
    ensures |r| == |wards| + 1
    ensures r[..|wards|] == wards
    ensures r[|wards|].name == name && r[|wards|].id == WardIdAt(now)
  {
    wards + [Ward(WardIdAt(now), name)]
  }

  /** `addUser`: appends the user as given, with no validation. */
  function AddUser(users: seq<User>, user: User): (r: seq<User>)
    ensures |r| == |users| + 1
    ensures r[..|users|] == users
    ensures r[|users|] == user
  {
    users + [user]
  }
}
