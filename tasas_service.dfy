/** The interest-rate table service: a table of installment-count ranges with
    a rate each, kept in the browser's key-value store under a fixed key. */
module TasasService {
  import opened Common

  /** One row of the rate table: installment counts `min..max` (inclusive)
      are charged `tasa` percent. The editor coerces the bounds with
      `Number`, so they are reals. */
  datatype Rango = Rango(id: int, descripcion: string, min: real, max: real, tasa: real)

  const TasasStorageKey: string := "lofinett_tasas_interes"

  /** Rate returned when no range covers the installment count. */
  const TasaSinRango: real := 10.0

  const DefaultTasas: seq<Rango> := [
    Rango(1, "Hasta 3 cuotas", 1.0, 3.0, 8.0),
    Rango(2, "De 4 a 6 cuotas", 4.0, 6.0, 10.0),
    Rango(3, "De 7 a 12 cuotas", 7.0, 12.0, 12.0),
    Rango(4, "De 13 a 18 cuotas", 13.0, 18.0, 15.0),
    Rango(5, "De 19 a 24 cuotas", 19.0, 24.0, 18.0)
  ]

  predicate Cubre(r: Rango, n: real) {
    n >= r.min && n <= r.max
  }

  /** Range `i` is the first, in stored order, that covers `n`. */
  predicate PrimeroQueCubre(tasas: seq<Rango>, n: real, i: int) {
    0 <= i < |tasas| && Cubre(tasas[i], n) && forall j :: 0 <= j < i ==> !Cubre(tasas[j], n)
  }

  /** `tasas.find(rango => n >= rango.min && n <= rango.max)`, as an index. */
  function BuscarRango(tasas: seq<Rango>, n: real): (k: Option<nat>)
    ensures k.Some? ==> k.value < |tasas| && Cubre(tasas[k.value], n)
    ensures k.Some? ==> forall j :: 0 <= j < k.value ==> !Cubre(tasas[j], n)
    ensures k.None? <==> forall j :: 0 <= j < |tasas| ==> !Cubre(tasas[j], n)
  {
    if tasas == [] then None
    else if Cubre(tasas[0], n) then Some(0)
    else match BuscarRango(tasas[1..], n)
      case None => None
      case Some(k) => Some(k + 1)
  }

  /** The rate for `n` installments: that of the first covering range in
      stored order, or `TasaSinRango` when none covers `n`. */
  function TasaPara(tasas: seq<Rango>, n: real): (t: real)
    ensures (forall j :: 0 <= j < |tasas| ==> !Cubre(tasas[j], n)) ==> t == TasaSinRango
    ensures forall i :: PrimeroQueCubre(tasas, n, i) ==> t == tasas[i].tasa
  {
    match BuscarRango(tasas, n)
    case None => TasaSinRango
    case Some(k) => tasas[k].tasa
  }

  lemma DefaultTasaDoce()
    ensures TasaPara(DefaultTasas, 12.0) == 12.0
    ensures TasaPara(DefaultTasas, 1000.0) == TasaSinRango
  {
  }

  /** What the store holds under a key: a table serialised as JSON, the
      empty string, or text that `JSON.parse` rejects. */
  datatype Guardado = Json(tabla: seq<Rango>) | TextoVacio | Ilegible

  /** The table `getTasasInteres` yields for a given store state. */
  function Leer(entries: map<string, Guardado>, readFails: bool): (t: seq<Rango>)
    ensures readFails ==> t == DefaultTasas
    ensures !readFails && TasasStorageKey in entries && entries[TasasStorageKey].Json?
            ==> t == entries[TasasStorageKey].tabla
    ensures !readFails && (TasasStorageKey !in entries || !entries[TasasStorageKey].Json?)
            ==> t == DefaultTasas
  {
    if readFails || TasasStorageKey !in entries then DefaultTasas
    else match entries[TasasStorageKey]
      case Json(tabla) => tabla
      case TextoVacio => DefaultTasas
      case Ilegible => DefaultTasas
  }

  /** The key-value store (`localStorage`) as the service sees it. */
  class ConfigStore {
    var entries: map<string, Guardado>
    /** `getItem` throws (storage unavailable). */
    var readFails: bool
    /** `setItem` throws (storage full or unavailable). */
    var writeFails: bool

    constructor (entries0: map<string, Guardado>, readFails0: bool, writeFails0: bool)
      ensures entries == entries0 && readFails == readFails0 && writeFails == writeFails0
    {
      entries, readFails, writeFails := entries0, readFails0, writeFails0;
    }

    function Actual(): seq<Rango>
      reads this
    {
      Leer(entries, readFails)
    }

    /** `getTasasInteres`: the stored table, or the defaults when nothing
        readable is stored or reading throws. */
    method GetTasasInteres() returns (t: seq<Rango>)
      ensures t == Actual()
      ensures !readFails && TasasStorageKey in entries && entries[TasasStorageKey].Json?
              ==> t == entries[TasasStorageKey].tabla
      ensures readFails || TasasStorageKey !in entries || !entries[TasasStorageKey].Json?
              ==> t == DefaultTasas
    {
      if readFails {
        return DefaultTasas;
      }
      if TasasStorageKey !in entries {
        return DefaultTasas;
      }
      var guardado := entries[TasasStorageKey];
      match guardado {
        case Json(tabla) => t := tabla;
        case TextoVacio => t := DefaultTasas;
        case Ilegible => t := DefaultTasas;
      }
    }

    /** `saveTasasInteres`: true exactly when the write does not throw. */
    method SaveTasasInteres(tasas: seq<Rango>) returns (ok: bool)
      modifies this
      ensures ok == !old(writeFails)
      ensures readFails == old(readFails) && writeFails == old(writeFails)
      ensures entries == if ok then old(entries)[TasasStorageKey := Json(tasas)] else old(entries)
      ensures ok && !readFails ==> Actual() == tasas
    {
      if writeFails {
        ok := false;
      } else {
        entries := entries[TasasStorageKey := Json(tasas)];
        ok := true;
      }
    }

    /** `getTasaForCuotas`: reads the table, then looks the count up. */
    method GetTasaForCuotas(numCuotas: int) returns (tasa: real)
      ensures tasa == TasaPara(Actual(), numCuotas as real)
    {
      var tasas := GetTasasInteres();
      tasa := TasaPara(tasas, numCuotas as real);
    }

    /** `resetTasasInteres`: writes the defaults and returns them even when
        the write throws. */
    method ResetTasasInteres() returns (t: seq<Rango>)
      modifies this
      ensures t == DefaultTasas
      ensures readFails == old(readFails) && writeFails == old(writeFails)
      ensures entries == if writeFails then old(entries)
                         else old(entries)[TasasStorageKey := Json(DefaultTasas)]
      ensures !writeFails ==> Actual() == DefaultTasas
    {
      if !writeFails {
        entries := entries[TasasStorageKey := Json(DefaultTasas)];
      }
      t := DefaultTasas;
    }
  }

  /** Saving then reading gives back the saved table; a failed write leaves
      what a read returns unchanged. */
  lemma SaveThenRead(entries: map<string, Guardado>, tasas: seq<Rango>, otra: string)
    requires otra != TasasStorageKey
    ensures Leer(entries[TasasStorageKey := Json(tasas)], false) == tasas
    ensures Leer(entries[otra := Ilegible], false) == Leer(entries, false)
  {
  }
}
