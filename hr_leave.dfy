/** HRLeaveApplication's `PengajuanHandler`: a list of leave submissions
    (pengajuan) and a table from each status to the message shown when a
    submission is given that status. The enums `StatusPengajuan` and
    `JenisCuti` are kept as their integer codes, since a cast from any
    integer can produce a value of either. */
module HrLeave {
  import opened Errors
  import opened Lists
  import opened Text

  type Day = int

  /** `StatusPengajuan` codes, in the order of the message table. */
  const Menunggu: int := 0
  const Disetujui: int := 1
  const Ditolak: int := 2

  /** `Pengajuan<JenisCuti>`: `jenis` is the leave-type code. */
  datatype Pengajuan = Pengajuan(
    id: int,
    namaKaryawan: string,
    jenis: int,
    tanggalMulai: Day,
    tanggalSelesai: Day,
    status: int)

  /** The table-driven messages (`pesanStatus`). */
  const PesanStatus: map<int, string> :=
    map[Menunggu := "Pengajuan sedang diproses.",
        Disetujui := "Pengajuan telah disetujui.",
        Ditolak := "Pengajuan ditolak."]

  /** The message printed for an unknown id. */
  const TidakDitemukan: string := "Pengajuan tidak ditemukan."

  function HasId(id: int): Pengajuan -> bool {
    (p: Pengajuan) => p.id == id
  }

  /** The table has a message for each of the three statuses and for nothing
      else, and the three messages differ. */
  lemma PesanStatusCoversStatuses()
    ensures PesanStatus.Keys == {Menunggu, Disetujui, Ditolak}
    ensures forall s :: s in PesanStatus <==> 0 <= s <= 2
    ensures PesanStatus[Menunggu] != PesanStatus[Disetujui]
    ensures PesanStatus[Disetujui] != PesanStatus[Ditolak]
    ensures PesanStatus[Ditolak] != PesanStatus[Menunggu]
  {
  }

  /** What `Dictionary` throws for a status the table does not hold. */
  function MissingStatus(status: int): (e: Error)
    ensures e.KeyNotFound?
  {
    KeyNotFound("The given key '" + IntToString(status) + "' was not present in the dictionary.")
  }

  class PengajuanHandler {
    var daftarPengajuan: seq<Pengajuan>

    constructor ()
      ensures daftarPengajuan == []
    {
      daftarPengajuan := [];
    }

    /** `TambahPengajuan`: append, with no check on the id. */
    method TambahPengajuan(pengajuan: Pengajuan)
      modifies this`daftarPengajuan
      ensures daftarPengajuan == old(daftarPengajuan) + [pengajuan]
    {
      daftarPengajuan := daftarPengajuan + [pengajuan];
    }

    /** `ProsesPengajuan`: give the first submission with the id the new
        status and return the message printed. An unknown id changes nothing
        and yields the not-found message. The status is stored before the
        table is consulted, so a status outside the table is stored and then
        the lookup fails. */
    method ProsesPengajuan(id: int, statusBaru: int) returns (r: Result<string>)
      modifies this`daftarPengajuan
      ensures var k := FirstIndex(old(daftarPengajuan), HasId(id));
              if k < 0 then
                daftarPengajuan == old(daftarPengajuan) && r == Ok(TidakDitemukan)
              else
                daftarPengajuan == old(daftarPengajuan)[k := old(daftarPengajuan)[k].(status := statusBaru)]
                && (statusBaru in PesanStatus ==> r == Ok(PesanStatus[statusBaru]))
                && (statusBaru !in PesanStatus ==> r == Err(MissingStatus(statusBaru)))
      ensures r.Err? <==> (exists p :: p in old(daftarPengajuan) && p.id == id) && statusBaru !in PesanStatus
      ensures |daftarPengajuan| == |old(daftarPengajuan)|
      ensures FirstIndex(daftarPengajuan, HasId(id)) == FirstIndex(old(daftarPengajuan), HasId(id))
      ensures forall i :: 0 <= i < |daftarPengajuan| && i != FirstIndex(old(daftarPengajuan), HasId(id)) ==>
                daftarPengajuan[i] == old(daftarPengajuan)[i]
      ensures var k := FirstIndex(daftarPengajuan, HasId(id));
              k >= 0 ==> daftarPengajuan[k].status == statusBaru
    {
      var k := FirstIndex(daftarPengajuan, HasId(id));
      if k < 0 {
        return Ok(TidakDitemukan);
      }
      var diproses := daftarPengajuan[k].(status := statusBaru);
      FirstIndexUpdate(daftarPengajuan, k, diproses, HasId(id));
      daftarPengajuan := daftarPengajuan[k := diproses];
      if statusBaru in PesanStatus {
        return Ok(PesanStatus[statusBaru]);
      }
      return Err(MissingStatus(statusBaru));
    }
  }
}
