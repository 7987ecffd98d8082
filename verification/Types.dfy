/** Values shared by every part of the security component service. */
module Types {

  /** AccessTokenID is an unsigned 32-bit number; 0 is never a real token. */
  type TokenId = t: nat | t < 0x1_0000_0000

  const INVALID_TOKEN: TokenId := 0

  datatype SecCompType = Unknown | Location | Paste | Save

  /** The permissions a component can hand out through the access-token kit. */
  datatype Permission = ApproximatelyLocation | PreciseLocation | SecurePaste

  datatype CrossAxisState = StateInvalid | StateCross | StateNoCross

  datatype Option<+T> = None | Some(value: T)

  /** The next key a loop over a hash map happens to meet. */
  method AnyOf<T>(s: set<T>) returns (x: T)
    requires s != {}
    ensures x in s
  {
    x :| x in s;
  }

  const INT32_RANGE := 0x8000_0000
  const UINT32_RANGE := 0x1_0000_0000
  const UINT64_RANGE := 0x1_0000_0000_0000_0000

  type Uint32 = n: nat | n < UINT32_RANGE
  type Uint64 = n: nat | n < UINT64_RANGE

  type Int32 = i: int | -INT32_RANGE <= i < INT32_RANGE

  /** A number kept in 32 bits and read as signed. */
  function Signed32(n: int): Int32 {
    var m := n % UINT32_RANGE;
    if m < INT32_RANGE then m else m - UINT32_RANGE
  }

  const SC_OK := 0
  const SC_SERVICE_ERROR_VALUE_INVALID := -50
  const SC_SERVICE_ERROR_PARCEL_OPERATE_FAIL := -51
  const SC_SERVICE_ERROR_SERVICE_NOT_EXIST := -55
  const SC_SERVICE_ERROR_COMPONENT_INFO_INVALID := -56
  const SC_SERVICE_ERROR_COMPONENT_NOT_EXIST := -58
  const SC_SERVICE_ERROR_PERMISSION_OPER_FAIL := -59
  const SC_SERVICE_ERROR_CLICK_EVENT_INVALID := -60
  const SC_SERVICE_ERROR_WAIT_FOR_DIALOG_CLOSE := -63
  const SC_SERVICE_ERROR_START_FIRST_USE_DIALOG_FAILED := -65
  const SC_ENHANCE_ERROR_NOT_EXIST_ENHANCE := -100
  const SC_ENHANCE_ERROR_IN_MALICIOUS_LIST := -109
  const SC_ENHANCE_ERROR_CLICK_EXTRA_CHECK_FAIL := -111

  /** The result codes as the interface numbers them: no refusal can be taken for a success, or for another one. */
  lemma ResultCodes()
    ensures [SC_SERVICE_ERROR_VALUE_INVALID, SC_SERVICE_ERROR_PARCEL_OPERATE_FAIL, SC_SERVICE_ERROR_SERVICE_NOT_EXIST,
             SC_SERVICE_ERROR_COMPONENT_INFO_INVALID, SC_SERVICE_ERROR_COMPONENT_NOT_EXIST,
             SC_SERVICE_ERROR_PERMISSION_OPER_FAIL, SC_SERVICE_ERROR_CLICK_EVENT_INVALID,
             SC_SERVICE_ERROR_WAIT_FOR_DIALOG_CLOSE, SC_SERVICE_ERROR_START_FIRST_USE_DIALOG_FAILED]
         == [-50, -51, -55, -56, -58, -59, -60, -63, -65]
    ensures [SC_OK, SC_ENHANCE_ERROR_NOT_EXIST_ENHANCE, SC_ENHANCE_ERROR_IN_MALICIOUS_LIST,
             SC_ENHANCE_ERROR_CLICK_EXTRA_CHECK_FAIL] == [0, -100, -109, -111]
  {
  }
}
