/** The persisted transaction record and its status enumeration. */
module Entity {
  import opened Wrappers

  /** The five lifecycle states; each is stored as the string of its own name. */
  datatype Status = PendingSign | Pending | Confirmed | Failed | Reorged

  function StatusName(s: Status): string {
    match s
    case PendingSign => "PENDING_SIGN"
    case Pending => "PENDING"
    case Confirmed => "CONFIRMED"
    case Failed => "FAILED"
    case Reorged => "REORGED"
  }

  /** The enumeration value whose string is `name`, if there is one. */
  function ParseStatus(name: string): (r: Option<Status>)
    ensures r.Some? ==> StatusName(r.value) == name
  {
    if name == "PENDING_SIGN" then Some(PendingSign)
    else if name == "PENDING" then Some(Pending)
    else if name == "CONFIRMED" then Some(Confirmed)
    else if name == "FAILED" then Some(Failed)
    else if name == "REORGED" then Some(Reorged)
    else None
  }

  const AllStatuses: seq<Status> := [PendingSign, Pending, Confirmed, Failed, Reorged]

  /** Exactly five statuses, their strings pairwise distinct, and every string
      read back as the status it names. */
  lemma StatusNamesAreDistinct()
    ensures |AllStatuses| == 5
    ensures forall s: Status :: s in AllStatuses
    ensures forall i, j :: 0 <= i < j < |AllStatuses| ==>
              StatusName(AllStatuses[i]) != StatusName(AllStatuses[j])
    ensures forall s: Status, name: string :: ParseStatus(name) == Some(s) <==> name == StatusName(s)
  {
    forall s: Status ensures s in AllStatuses {
      match s
      case PendingSign => assert AllStatuses[0] == s;
      case Pending => assert AllStatuses[1] == s;
      case Confirmed => assert AllStatuses[2] == s;
      case Failed => assert AllStatuses[3] == s;
      case Reorged => assert AllStatuses[4] == s;
    }
  }

  /** A stream entry identifier; Redis assigns them in increasing order. */
  type StreamId = nat

  /** A row of the `transactions` table. `txHash`, `redisStreamMessageId`,
      `blockNumber` and `nonce` are nullable; `blockNumber` and `nonce` are
      bigint columns and arrive as decimal text. */
  datatype Transaction = Transaction(
    id: string,
    userAddress: string,
    chainId: string,
    contractAddress: string,
    methodName: string,
    args: seq<string>,
    txHash: Option<string>,
    redisStreamMessageId: Option<StreamId>,
    blockNumber: Option<string>,
    nonce: Option<string>,
    status: Status)

  /** The entity the repository creates from the five request fields: every
      nullable column null and the status at its column default. */
  function NewRecord(id: string, userAddress: string, chainId: string, contractAddress: string,
                     methodName: string, args: seq<string>): (t: Transaction)
    ensures t.status == PendingSign
    ensures t.txHash.None? && t.redisStreamMessageId.None? && t.blockNumber.None? && t.nonce.None?
    ensures t.id == id && t.userAddress == userAddress && t.chainId == chainId
    ensures t.contractAddress == contractAddress && t.methodName == methodName && t.args == args
  {
    Transaction(id, userAddress, chainId, contractAddress, methodName, args, None, None, None, None, PendingSign)
  }
}
