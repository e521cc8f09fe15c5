/** The property map that carries a token: LN, Q and the monitor set under reserved names, next to the monitor's own
    properties. */
module TokenMap {
  import opened Basics
  import opened Properties
  import opened Token
  import opened Slot

  /** A character's code; names and tags are written in ASCII. */
  function Code(c: char): Byte {
    if c < 0x100 as char then c as int else 0
  }

  function Ascii(s: string): (r: Str)
    ensures |r| == |s|
  {
    seq(|s|, i requires 0 <= i < |s| => Code(s[i]))
  }

  const LN_NAME: Str := Ascii("___token_ln")
  const QUEUE_NAME: Str := Ascii("___token_queue")
  const MONITORS_NAME: Str := Ascii("monitors")
  const SYSTEM_NAME: Str := Ascii("___system_token")
  const U32S_TAG: Str := Ascii("#u32")
  const STRINGS_TAG: Str := Ascii("Vector<String>")

  // ---------------------------------------------------------------- names of tokens

  function NameOf(t: TokenId): Str {
    match t
    case System => SYSTEM_NAME
    case Monitor(name) => name
  }

  function IdOf(name: Str): TokenId {
    if name == SYSTEM_NAME then System else Monitor(name)
  }

  predicate Named(t: TokenId) {
    t != Monitor(SYSTEM_NAME)
  }

  // ---------------------------------------------------------------- saving

  /** std::map::emplace: an entry that is there already stays. */
  function Emplace(m: Props, id: Str, tag: Str, v: Value): Props {
    if id in m then m else m[id := Property(id, tag, v)]
  }

  function AsU32(x: nat): U32 {
    x % 0x1_0000_0000
  }

  function Narrow(q: seq<NodeId>): seq<U32> {
    seq(|q|, i requires 0 <= i < |q| => AsU32(q[i]))
  }

  /** TokenPrivateData::saveProperties */
  function SaveToken(m: Props, p: Priv): Props
  {
    Emplace(Emplace(m, LN_NAME, U32S_TAG, Dwords(p.ln)), QUEUE_NAME, U32S_TAG, Dwords(Narrow(p.queue)))
  }

  /** The part that SystemToken::saveProperties adds; names lists the monitors in the order of the set. */
  function SaveMonitors(m: Props, names: seq<Str>): Props {
    Emplace(m, MONITORS_NAME, STRINGS_TAG, Strings(names))
  }

  /** Monitor::saveProperties */
  function SaveVars(m: Props, vars: Props): Props {
    map x | x in m.Keys + vars.Keys :: if x in m then m[x] else vars[x]
  }

  /** names lists exactly the monitors in mons, each once. */
  ghost predicate Enumerates(names: seq<Str>, mons: set<TokenId>) {
    NoDup(names) && forall t :: t in mons <==> t.Monitor? && t.name in names
  }

  // ---------------------------------------------------------------- loading

  /** The types of the reserved entries; the source casts without looking. */
  predicate Typed(m: Props) {
    && (LN_NAME in m ==> m[LN_NAME].value.Dwords?)
    && (QUEUE_NAME in m ==> m[QUEUE_NAME].value.Dwords?)
  }

  predicate HasToken(m: Props) {
    QUEUE_NAME in m && LN_NAME in m
  }

  /** TokenPrivateData::loadProperties */
  function LoadToken(p: Priv, n: nat, m: Props): Priv
    requires Typed(m)
  {
    if !HasToken(m) || |m[LN_NAME].value.ds| != n then p
    else p.(queue := m[QUEUE_NAME].value.ds, ln := m[LN_NAME].value.ds)
  }

  /** What SystemToken::loadProperties does to the monitor set. */
  function LoadMonitors(mons: set<TokenId>, m: Props): set<TokenId>
    requires MONITORS_NAME in m ==> m[MONITORS_NAME].value.Strings?
  {
    if MONITORS_NAME !in m then mons else set x | x in m[MONITORS_NAME].value.ss :: Monitor(x)
  }

  // ---------------------------------------------------------------- a token in a map

  predicate Reserved(x: Str) {
    x == LN_NAME || x == QUEUE_NAME
  }

  /** Assumption: no property has a reserved name. */
  predicate Plain(m: Props) {
    forall x :: x in m ==> !Reserved(x)
  }

  /** What ClusterLoop::sendToken puts into the map. */
  function Pack(t: TokenId, d: TokenData, names: seq<Str>): Props
  {
    var m := SaveToken(map[], Priv([], [], d.queue, true, true, false).(ln := d.ln));
    if t == System then SaveMonitors(m, names) else SaveVars(m, d.props)
  }

  /** The token that such a map carries. */
  function Unpack(t: TokenId, m: Props): TokenData
    requires Typed(m) && HasToken(m) && (t == System ==> MONITORS_NAME in m && m[MONITORS_NAME].value.Strings?)
  {
    TokenData(m[LN_NAME].value.ds, m[QUEUE_NAME].value.ds,
              if t == System then LoadMonitors({}, m) else {},
              if t == System then map[] else map x | x in m && !Reserved(x) :: m[x])
  }

  /** The reserved entries that are there have the types they are cast to. */
  predicate Castable(t: TokenId, m: Props) {
    Typed(m) && (t == System && MONITORS_NAME in m ==> m[MONITORS_NAME].value.Strings?)
  }

  /** LN and Q are taken from the map when both are there and LN has the right length. */
  predicate TokenThere(m: Props, n: nat)
    requires Typed(m)
  {
    HasToken(m) && |m[LN_NAME].value.ds| == n
  }

  /** What one of n nodes, which knows of the monitors in mons, makes of any map. */
  function TokenIn(t: TokenId, m: Props, n: nat, mons: set<TokenId>): TokenData
    requires Castable(t, m)
  {
    TokenData(if TokenThere(m, n) then m[LN_NAME].value.ds else [], if TokenThere(m, n) then m[QUEUE_NAME].value.ds else [],
              if t == System then LoadMonitors(mons, m) else {},
              if t == System then map[] else map x | x in m && !Reserved(x) :: m[x])
  }

  /** Of a map that carries a token for n nodes it makes that token. */
  lemma TokenInUnpacked(t: TokenId, m: Props, n: nat, mons: set<TokenId>)
    requires Typed(m) && HasToken(m) && (t == System ==> MONITORS_NAME in m && m[MONITORS_NAME].value.Strings?)
    requires |Unpack(t, m).ln| == n
    ensures TokenIn(t, m, n, mons) == Unpack(t, m)
  {
  }

  lemma NamesDiffer()
    ensures LN_NAME != QUEUE_NAME && LN_NAME != MONITORS_NAME && QUEUE_NAME != MONITORS_NAME && U32S_TAG != STRINGS_TAG
  {
    assert |LN_NAME| == 11 && |QUEUE_NAME| == 14 && |MONITORS_NAME| == 8 && |U32S_TAG| == 4 && |STRINGS_TAG| == 14;
  }

  /** A token that could be on its way. */
  ghost predicate Packable(t: TokenId, d: TokenData, names: seq<Str>) {
    && (forall x: nat :: x in d.queue ==> x <= U32_MAX)
    && (if t == System then d.props == map[] && Enumerates(names, d.monitors)
        else d.monitors == {} && Plain(d.props))
  }

  /** Saving and reading back gives the same token: LN and Q as sequences, the monitor set, and the properties. */
  lemma PackRoundTrip(t: TokenId, d: TokenData, names: seq<Str>)
    requires Packable(t, d, names)
    ensures var m := Pack(t, d, names);
      && Typed(m) && HasToken(m) && (t == System ==> MONITORS_NAME in m && m[MONITORS_NAME].value.Strings?)
      && Unpack(t, m) == d
  {
    NamesDiffer();
    var m := Pack(t, d, names);
    assert forall i: nat :: i < |d.queue| ==> d.queue[i] in d.queue;
    assert Narrow(d.queue) == d.queue;
    if t == System {
      assert (set x | x in names :: Monitor(x)) == d.monitors;
    } else {
      assert (map x | x in m && !Reserved(x) :: m[x]) == d.props;
    }
  }

  /** Loading a map is loading the token in it: RN and the flags stay, LN, Q and the monitor set are replaced. */
  lemma LoadUnpacked(t: TokenId, p: Priv, n: nat, mons: set<TokenId>, m: Props)
    requires Castable(t, m) && n > 0
    ensures var q := LoadToken(p, n, m);
      && (forall x: nat :: x in q.queue ==> x in p.queue || x in TokenIn(t, m, n, mons).queue)
      && q == Load(p, n, TokenIn(t, m, n, mons)) && q.rn == p.rn && q.created == p.created && q.owned == p.owned && q.locked == p.locked
    ensures t == System ==> LoadMonitors(mons, m) == TokenIn(t, m, n, mons).monitors
  {
  }

  /** Monitor::loadProperties looks up bound names only, so the reserved entries do not disturb it. */
  lemma LoadPropsUnpacked(t: TokenId, bound: Props, m: Props, n: nat, mons: set<TokenId>)
    requires Castable(t, m) && t.Monitor? && Plain(bound)
    ensures LoadProps(bound, m) == LoadProps(bound, TokenIn(t, m, n, mons).props)
  {
  }
}
