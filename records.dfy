/** The records of the bundled fixtures that several pages share. */
module Records {

  /** A member of parliament (members fixture). `foto` is "" when the record
      has no photo, and `isPimpinan` is false when the record does not set it. */
  datatype Member = Member(
    id: int,
    nama: string,
    jabatan: string,
    fraksi: string,
    dapil: string,
    foto: string,
    isPimpinan: bool)

  /** A bill (legislation fixture). */
  datatype Law = Law(id: int, judul: string, status: string, tanggal: string, komisi: string)

  /** One month of a year's budget (budget fixture); amounts are whole rupiah. */
  datatype BudgetMonth = BudgetMonth(
    bulan: string,
    gajiTunjangan: int,
    danaLegislasi: int,
    danaResesKunjungan: int,
    operasionalStaf: int,
    biayaBadan: int)

  /** A budget row is of the month `bulan`, and its negation. */
  function OfMonth(bulan: string): BudgetMonth -> bool {
    (m: BudgetMonth) => m.bulan == bulan
  }

  function NotOfMonth(bulan: string): BudgetMonth -> bool {
    (m: BudgetMonth) => m.bulan != bulan
  }

  /** The keys of the budget table: `Object.keys` yields strings, and a numeric
      year used as a key denotes the same property as its decimal text. */
  type Year = string

  /** The value used by every "no filter" option of the public pages. */
  const All: string := "All"
}
