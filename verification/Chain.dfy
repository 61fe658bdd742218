/** The vocabulary shared by the metaprotocol modules: transactions as the
    indexer sees them, and the body it stores for every unspent output. */
module Chain {

  datatype Option<+T> = None | Some(value: T) {
    function GetOr(default: T): T {
      if Some? then value else default
    }
  }

  const U32_MAX: nat := 0xFFFF_FFFF
  const U64_MAX: nat := 0xFFFF_FFFF_FFFF_FFFF
  const U128_MAX: nat := 0xFFFF_FFFF_FFFF_FFFF_FFFF_FFFF_FFFF_FFFF

  const HALVING: nat := 210_000

  // The block subsidy in sats.
  function BlockSubsidy(height: nat): nat {
    var halvings := height / HALVING;
    if halvings < 64 then Halve(5_000_000_000, halvings) else 0
  }

  function Halve(n: nat, k: nat): nat {
    if k == 0 then n else Halve(n / 2, k - 1)
  }

  type Txid = nat        // 0 is the all-zero hash
  type Script = nat      // a script hash
  type Ticker = string   // lower-cased BRC-20 ticker

  const ZERO_TXID: Txid := 0

  datatype OutPoint = OutPoint(txid: Txid, vout: nat)

  // The previous output of a coinbase input, also the place of lost sats.
  const NULL_OUTPOINT := OutPoint(ZERO_TXID, U32_MAX)
  // The place of inscriptions that are bound to no sat.
  const UNBOUND_OUTPOINT := OutPoint(ZERO_TXID, 0)

  datatype RuneId = RuneId(block: nat, tx: nat)
  datatype InscriptionId = InscriptionId(txid: Txid, index: nat)

  // BRC-20 amount locked in a transfer inscription that has not moved yet.
  datatype Transfer = Transfer(ticker: Ticker, amount: nat)

  datatype TxoBody = TxoBody(
    height: nat,
    value: nat,
    script: Script,
    runes: map<RuneId, nat>,
    inscriptions: seq<(nat, InscriptionId)>,
    transfers: map<InscriptionId, Transfer>)

  datatype TxOut = TxOut(value: nat, script: Script, opReturn: bool)

  // ----- runes, as deciphered from the transaction

  datatype Edict = Edict(id: RuneId, amount: nat, output: nat)

  datatype MintTerms = MintTerms(
    amount: Option<nat>,
    cap: Option<nat>,
    heightStart: Option<nat>,
    heightEnd: Option<nat>,
    offsetStart: Option<nat>,
    offsetEnd: Option<nat>)

  datatype Etching = Etching(rune: Option<nat>, premine: Option<nat>, terms: Option<MintTerms>)

  datatype Artifact =
    | Runestone(edicts: seq<Edict>, etching: Option<Etching>, mint: Option<RuneId>, pointer: Option<nat>)
    | Cenotaph(burnedEtching: Option<nat>, mint: Option<RuneId>)

  // ----- inscriptions, as parsed from the transaction's envelopes

  datatype Operation = Deploy | Mint | TransferInit | Unknown

  // A BRC-20 message as found in an inscription: `tickLength` is the byte
  // length of the ticker as written, `tick` its lower-cased form.
  datatype RawMessage = RawMessage(
    op: Operation,
    tickLength: nat,
    tick: Ticker,
    max: Option<string>,
    lim: Option<string>,
    dec: Option<string>,
    selfMint: bool,
    amt: Option<string>)

  // `cursed` and `vindicated` are the outcome of the curse classification.
  datatype Envelope = Envelope(
    input: nat,
    pointer: Option<nat>,
    unrecognizedEvenField: bool,
    cursed: bool,
    vindicated: bool,
    message: Option<RawMessage>)

  // `nameAccepted` says that an explicitly named etching clears the minimum
  // name and is committed to by one of the inputs.
  datatype Tx = Tx(
    id: Txid,
    inputs: seq<OutPoint>,
    outputs: seq<TxOut>,
    artifact: Option<Artifact>,
    nameAccepted: bool,
    envelopes: seq<Envelope>)

  function Get<K>(m: map<K, nat>, k: K): nat {
    if k in m then m[k] else 0
  }

  function Min(a: int, b: int): int {
    if a <= b then a else b
  }

  function Max(a: int, b: int): int {
    if a <= b then b else a
  }
}
