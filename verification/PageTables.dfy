/**
  Page table entries as `src/kernel/memory/pages.c` packs them, and the page walk of
  section 4.3.2 of the RISC-V privileged architecture with the Sv39 parameters of
  section 4.4, over the V, R, W, X and PPN fields.
  */
module PageTables {
  import opened Arithmetic

  const FRAME_SIZE := 0x1000
  const KILO_SIZE := 0x1000
  const MEGA_SIZE := 0x20_0000
  const GIGA_SIZE := 0x4000_0000
  const PT_SIZE := 512
  const PHYSICAL_LIMIT := 0x100_0000_0000_0000  // 2^56: what 26 + 9 + 9 + 12 bits can address

  datatype PageSize = Giga | Mega | Kilo

  datatype Pte = Pte(valid: bool, read: bool, write: bool, exec: bool, user: bool, ppn0: nat, ppn1: nat, ppn2: nat)

  /** An entry of a table just cleared by `create_page_table`. */
  const BLANK := Pte(false, false, false, false, false, 0, 0, 0)

  /** `link_pte`, with the shifts and masks as quotients and remainders. */
  function LinkPte(pte: Pte, address: nat): Pte {
    var a := address / FRAME_SIZE;
    var b := a / 512;
    var c := b / 512;
    pte.(ppn0 := a % 512, ppn1 := b % 512, ppn2 := c % 0x400_0000)
  }

  /** `configure_page_entry`. */
  function Configure(address: nat, read: bool, write: bool, exec: bool, user: bool, size: PageSize): Pte {
    var pte := LinkPte(Pte(true, read, write, exec, user, 0, 0, 0), address);
    match size
    case Giga => pte.(ppn0 := 0, ppn1 := 0)
    case Mega => pte.(ppn0 := 0)
    case Kilo => pte
  }

  /** `find_pte_adress`. */
  function PteAddress(pte: Pte): nat {
    pte.ppn2 * GIGA_SIZE + pte.ppn1 * MEGA_SIZE + pte.ppn0 * KILO_SIZE
  }

  /** `map_address_for_process`. */
  function MapAddress(lvl2: nat, lvl1: nat, lvl0: nat): nat {
    lvl2 * GIGA_SIZE + lvl1 * MEGA_SIZE + lvl0 * KILO_SIZE
  }

  lemma Remainder(x: int, m: nat, q: int, r: int)
    requires m > 0 && x == q * m + r && 0 <= r < m
    ensures x % m == r
  {
    ModEqual(x, r, m, q);
    ModSmall(r, m);
  }

  /** The bytes of an address within its page, and its three page numbers. */
  lemma Digits(address: nat)
    ensures var a := address / FRAME_SIZE;
            address % PHYSICAL_LIMIT == a / 512 / 512 % 0x400_0000 * GIGA_SIZE + a / 512 % 512 * MEGA_SIZE
                                        + a % 512 * KILO_SIZE + address % FRAME_SIZE
  {
    var a := address / FRAME_SIZE;
    var b := a / 512;
    var c := b / 512;
    Remainder(address, PHYSICAL_LIMIT, c / 0x400_0000,
              c % 0x400_0000 * GIGA_SIZE + b % 512 * MEGA_SIZE + a % 512 * KILO_SIZE + address % FRAME_SIZE);
  }

  /** What an entry points to is the address it was linked to, down to the page size and
      up to 56 bits. */
  lemma LinkedAddress(address: nat, r: bool, w: bool, x: bool, u: bool, size: PageSize)
    ensures var page := match size case Giga => GIGA_SIZE case Mega => MEGA_SIZE case Kilo => KILO_SIZE;
            var a := address % PHYSICAL_LIMIT;
            PteAddress(Configure(address, r, w, x, u, size)) == a - a % page
  {
    Digits(address);
    var a := address / FRAME_SIZE;
    var b, c := a / 512, a / 512 / 512 % 0x400_0000;
    var k := address % FRAME_SIZE;
    match size
    case Kilo => Remainder(address % PHYSICAL_LIMIT, KILO_SIZE, c * 0x4_0000 + b % 512 * 512 + a % 512, k);
    case Mega => Remainder(address % PHYSICAL_LIMIT, MEGA_SIZE, c * 512 + b % 512, a % 512 * KILO_SIZE + k);
    case Giga => Remainder(address % PHYSICAL_LIMIT, GIGA_SIZE, c, b % 512 * MEGA_SIZE + a % 512 * KILO_SIZE + k);
  }

  /** The address read back is the address written, exactly for page-aligned addresses of
      at most 56 bits. */
  lemma EntryRoundTrip(address: nat, r: bool, w: bool, x: bool, u: bool)
    ensures PteAddress(Configure(address, r, w, x, u, Kilo)) == address
            <==> address % FRAME_SIZE == 0 && address < PHYSICAL_LIMIT
  {
    LinkedAddress(address, r, w, x, u, Kilo);
    var a := address % PHYSICAL_LIMIT;
    ModMod(address, KILO_SIZE, 0x1000_0000_000);
    if address < PHYSICAL_LIMIT { ModSmall(address, PHYSICAL_LIMIT); }
  }

  // ----- the walk -----

  datatype Frame =
    | Link(next: nat)        // a free frame: its first word is the next free frame
    | Table(ptes: seq<Pte>)
    | Copy(from: nat)        // 4096 bytes copied from this offset of the application image
    | Zero

  datatype Translation = Fault | Page(address: nat, read: bool, write: bool, exec: bool)

  function Vpn(va: nat, level: nat): (r: nat)
    requires level < 3
    ensures r < PT_SIZE
  {
    match level
    case 0 => va / KILO_SIZE % 512
    case 1 => va / MEGA_SIZE % 512
    case 2 => va / GIGA_SIZE % 512
  }

  function PageOf(level: nat): nat
    requires level < 3
  {
    match level
    case 0 => KILO_SIZE
    case 1 => MEGA_SIZE
    case 2 => GIGA_SIZE
  }

  /** Translation of `va` from a table at a level. */
  function WalkFrom(frames: map<nat, Frame>, table: nat, level: nat, va: nat): Translation
    requires level < 3
    decreases level
  {
    if table !in frames || !frames[table].Table? || |frames[table].ptes| != PT_SIZE then Fault
    else
      var pte := frames[table].ptes[Vpn(va, level)];
      if !pte.valid || (!pte.read && pte.write) then Fault
      else if pte.read || pte.exec then
        if PteAddress(pte) % PageOf(level) != 0 then Fault
        else Page(PteAddress(pte) + va % PageOf(level), pte.read, pte.write, pte.exec)
      else if level == 0 then Fault
      else WalkFrom(frames, PteAddress(pte), level - 1, va)
  }

  /** Translation by the process whose level-2 table is `root`. */
  function Walk(frames: map<nat, Frame>, root: nat, va: nat): Translation {
    WalkFrom(frames, root, 2, va)
  }
}
