/**
 * The veterinary clinic of src/tp05/ej03.rs: a double-ended attention queue
 * of pets and a list of care records that is searched, patched and pruned
 * at its first matching entry. The JSON file the source rewrites after each
 * change is not modelled; the in-memory lists are the state.
 *
 * Matching is deliberately loose, as in the source: a pet is identified by
 * its name and its owner's name and address (not the phone, age or kind),
 * and a record by its pet (in that sense) and its date.
 */
module Veterinarias {
  import opened Wrappers
  import opened Fechas
  import Format
  import Seqs

  datatype TipoAnimal = Perro | Gato | Caballo | Otros

  datatype Cliente = Cliente(nombre: string, direccion: string, telefono: string)

  /** `edad` is a `u8` in the source; no operation here reads it. */
  datatype Mascota = Mascota(nombre: string, edad: nat, tipo: TipoAnimal, duenio: Cliente)

  datatype RegistroAtencion = RegistroAtencion(
    mascota: Mascota,
    diagnostico: string,
    tratamiento: string,
    fecha: Fecha,
    proximaFecha: Option<Fecha>)

  /** `Cliente::comparar`: the same address and name; the phone is ignored. */
  predicate MismoCliente(a: Cliente, b: Cliente) {
    a.direccion == b.direccion && a.nombre == b.nombre
  }

  /** `Mascota::comparar`: the same name and the same owner in the sense above. */
  predicate MismaMascota(a: Mascota, b: Mascota) {
    b.nombre == a.nombre && MismoCliente(b.duenio, a.duenio)
  }

  /** `RegistroAtencion::comparar`: pet name, owner name and owner phone. */
  predicate CoincideRegistro(r: RegistroAtencion, nombreMascota: string, nombreDuenio: string, telefono: string) {
    r.mascota.nombre == nombreMascota
    && r.mascota.duenio.nombre == nombreDuenio
    && r.mascota.duenio.telefono == telefono
  }

  /** `RegistroAtencion::comparar_completo`: the same pet and the same date. */
  predicate MismaAtencion(r: RegistroAtencion, a: RegistroAtencion) {
    MismaMascota(r.mascota, a.mascota) && Comparar(r.fecha, a.fecha)
  }

  /** Pets differing only in the owner's phone, their age or their kind are the same pet. */
  lemma MismaMascotaIgnoraTelefono(m: Mascota, telefono: string, edad: nat, tipo: TipoAnimal)
    ensures MismaMascota(m, m.(edad := edad, tipo := tipo, duenio := m.duenio.(telefono := telefono)))
  {
  }

  /** Both matchings are equivalence relations. */
  lemma MismaAtencionEquivalencia(a: RegistroAtencion, b: RegistroAtencion, c: RegistroAtencion)
    ensures MismaAtencion(a, a)
    ensures MismaAtencion(a, b) ==> MismaAtencion(b, a)
    ensures MismaAtencion(a, b) && MismaAtencion(b, c) ==> MismaAtencion(a, c)
    ensures MismaMascota(a.mascota, b.mascota) ==> MismaMascota(b.mascota, a.mascota)
  {
  }

  /** Index of the first queued pet that is the same pet as `m`. */
  function PosicionMascota(cola: seq<Mascota>, m: Mascota): (r: Option<nat>)
    ensures r.Some? ==> r.value < |cola| && MismaMascota(cola[r.value], m)
    ensures r.Some? ==> forall j :: 0 <= j < r.value ==> !MismaMascota(cola[j], m)
    ensures r.None? <==> forall j :: 0 <= j < |cola| ==> !MismaMascota(cola[j], m)
  {
    Seqs.FindIndex(cola, x => MismaMascota(x, m))
  }

  /** The queue once its first entry for `m` is gone (unchanged when there is none). */
  function SinMascota(cola: seq<Mascota>, m: Mascota): (r: seq<Mascota>)
    ensures PosicionMascota(cola, m).None? ==> r == cola
    ensures PosicionMascota(cola, m).Some? ==>
      var i := PosicionMascota(cola, m).value;
      |r| == |cola| - 1 && r[..i] == cola[..i] && r[i..] == cola[i + 1..]
      && multiset(r) == multiset(cola) - multiset{cola[i]}
  {
    match PosicionMascota(cola, m)
    case None => cola
    case Some(i) => Seqs.RemoveAt(cola, i)
  }

  /** Removing a pet just queued at the back, when it was not queued before, restores the queue. */
  lemma EliminarDeshaceAgregar(cola: seq<Mascota>, m: Mascota)
    requires PosicionMascota(cola, m).None?
    ensures SinMascota(cola + [m], m) == cola
  {
    var c := cola + [m];
    assert c[|cola|] == m;
    assert PosicionMascota(c, m) == Some(|cola|);
  }

  /** Removing a pet just queued at the front always restores the queue. */
  lemma EliminarDeshaceUrgente(cola: seq<Mascota>, m: Mascota)
    ensures SinMascota([m] + cola, m) == cola
  {
    var c := [m] + cola;
    assert c[0] == m;
    assert PosicionMascota(c, m) == Some(0);
    assert c[1..] == cola;
  }

  /** `buscar_registro_atencion`: the first record for that pet name, owner name and phone. */
  function BuscarRegistro(registros: seq<RegistroAtencion>, nombreMascota: string, nombreDuenio: string, telefono: string): (r: Option<RegistroAtencion>)
    ensures r.Some? ==> CoincideRegistro(r.value, nombreMascota, nombreDuenio, telefono)
    ensures r.Some? ==>
      exists i :: 0 <= i < |registros| && registros[i] == r.value &&
        forall j :: 0 <= j < i ==> !CoincideRegistro(registros[j], nombreMascota, nombreDuenio, telefono)
    ensures r.None? <==> forall j :: 0 <= j < |registros| ==> !CoincideRegistro(registros[j], nombreMascota, nombreDuenio, telefono)
  {
    match Seqs.FindIndex(registros, x => CoincideRegistro(x, nombreMascota, nombreDuenio, telefono))
    case None => None
    case Some(i) => Some(registros[i])
  }

  /** A record just registered is found by its own pet name, owner name and phone. */
  lemma RegistrarLuegoBuscar(registros: seq<RegistroAtencion>, ra: RegistroAtencion)
    ensures var m := ra.mascota;
      var b := BuscarRegistro(registros + [ra], m.nombre, m.duenio.nombre, m.duenio.telefono);
      b.Some? && CoincideRegistro(b.value, m.nombre, m.duenio.nombre, m.duenio.telefono)
  {
    var r := registros + [ra];
    assert r[|registros|] == ra;
  }

  /** Index of the first record that `comparar_completo` matches with `ra`. */
  function PosicionAtencion(registros: seq<RegistroAtencion>, ra: RegistroAtencion): (r: Option<nat>)
    ensures r.Some? ==> r.value < |registros| && MismaAtencion(registros[r.value], ra)
    ensures r.Some? ==> forall j :: 0 <= j < r.value ==> !MismaAtencion(registros[j], ra)
    ensures r.None? <==> forall j :: 0 <= j < |registros| ==> !MismaAtencion(registros[j], ra)
  {
    Seqs.FindIndex(registros, x => MismaAtencion(x, ra))
  }

  /** The records with the first match of `original` replaced by `modificado`. */
  function ConDiagnostico(registros: seq<RegistroAtencion>, original: RegistroAtencion, modificado: RegistroAtencion): (r: seq<RegistroAtencion>)
    ensures |r| == |registros|
    ensures PosicionAtencion(registros, original).None? ==> r == registros
    ensures PosicionAtencion(registros, original).Some? ==>
      var i := PosicionAtencion(registros, original).value;
      r[i] == modificado && forall j :: 0 <= j < |r| && j != i ==> r[j] == registros[j]
  {
    match PosicionAtencion(registros, original)
    case None => registros
    case Some(i) => registros[i := modificado]
  }

  /** The records with `proxima_fecha` of the first match of `ra` set to `f`. */
  function ConProximaFecha(registros: seq<RegistroAtencion>, ra: RegistroAtencion, f: Fecha): (r: seq<RegistroAtencion>)
    ensures |r| == |registros|
    ensures PosicionAtencion(registros, ra).None? ==> r == registros
    ensures PosicionAtencion(registros, ra).Some? ==>
      var i := PosicionAtencion(registros, ra).value;
      r[i] == registros[i].(proximaFecha := Some(f)) && forall j :: 0 <= j < |r| && j != i ==> r[j] == registros[j]
  {
    match PosicionAtencion(registros, ra)
    case None => registros
    case Some(i) => registros[i := registros[i].(proximaFecha := Some(f))]
  }

  /** The records without the first match of `ra`, the others kept in order. */
  function SinAtencion(registros: seq<RegistroAtencion>, ra: RegistroAtencion): (r: seq<RegistroAtencion>)
    ensures PosicionAtencion(registros, ra).None? ==> r == registros
    ensures PosicionAtencion(registros, ra).Some? ==>
      var i := PosicionAtencion(registros, ra).value;
      |r| == |registros| - 1 && r[..i] == registros[..i] && r[i..] == registros[i + 1..]
      && multiset(r) == multiset(registros) - multiset{registros[i]}
  {
    match PosicionAtencion(registros, ra)
    case None => registros
    case Some(i) => Seqs.RemoveAt(registros, i)
  }

  /**
   * Setting the next date does not change which record matches, so doing it
   * again with the same date changes nothing.
   */
  lemma ModificarFechaIdempotente(registros: seq<RegistroAtencion>, ra: RegistroAtencion, f: Fecha)
    ensures PosicionAtencion(ConProximaFecha(registros, ra, f), ra) == PosicionAtencion(registros, ra)
    ensures ConProximaFecha(ConProximaFecha(registros, ra, f), ra, f) == ConProximaFecha(registros, ra, f)
  {
    var r := ConProximaFecha(registros, ra, f);
    assert forall j :: 0 <= j < |r| ==> (MismaAtencion(r[j], ra) <==> MismaAtencion(registros[j], ra));
    var p := PosicionAtencion(registros, ra);
    var q := PosicionAtencion(r, ra);
    if p.Some? {
      assert q.Some?;
      assert !(q.value < p.value) && !(p.value < q.value);
    } else {
      assert q.None?;
    }
  }

  /** The record a diagnosis replacement leaves is found again by the replacement itself. */
  lemma ModificarDiagnosticoEncontrable(registros: seq<RegistroAtencion>, original: RegistroAtencion, modificado: RegistroAtencion)
    requires PosicionAtencion(registros, original).Some?
    ensures PosicionAtencion(ConDiagnostico(registros, original, modificado), modificado).Some?
  {
    var i := PosicionAtencion(registros, original).value;
    MismaAtencionEquivalencia(modificado, modificado, modificado);
    assert MismaAtencion(ConDiagnostico(registros, original, modificado)[i], modificado);
  }

  /** The day `get_info` reports: that of `proxima_fecha`, or 0 without one. */
  function ProximoDia(r: RegistroAtencion): (d: nat)
    ensures r.proximaFecha.None? ==> d == 0
    ensures r.proximaFecha.Some? ==> d == r.proximaFecha.value.dia
  {
    match r.proximaFecha
    case None => 0
    case Some(f) => f.dia
  }

  function EncabezadoInfo(r: RegistroAtencion): string {
    "diagnostico:" + r.diagnostico + " tratamiento:" + r.tratamiento + " prox_dia:"
  }

  /** `get_info`: diagnosis, treatment and the day of the next visit, in that order. */
  function GetInfo(r: RegistroAtencion): (s: string)
    ensures |s| > |EncabezadoInfo(r)| && s[..|EncabezadoInfo(r)|] == EncabezadoInfo(r)
    ensures forall i :: |EncabezadoInfo(r)| <= i < |s| ==> Format.IsDigit(s[i])
  {
    EncabezadoInfo(r) + Format.NatToString(ProximoDia(r))
  }

  /** The day printed at the end of `get_info` reads back as the next visit's day (0 without one). */
  lemma GetInfoDia(r: RegistroAtencion)
    ensures Format.ParseNat(GetInfo(r)[|EncabezadoInfo(r)|..]) == ProximoDia(r)
  {
    var e := EncabezadoInfo(r);
    assert GetInfo(r)[|e|..] == Format.NatToString(ProximoDia(r));
    Format.ParseNatToString(ProximoDia(r));
  }

  class Veterinaria {
    var nombre: string
    var direccion: string
    var id: nat
    var colaAtencion: seq<Mascota>
    var registroAtencion: seq<RegistroAtencion>

    /** `Veterinaria::new`: an empty queue and no records. */
    constructor (nombre: string, direccion: string, id: nat)
      ensures this.nombre == nombre && this.direccion == direccion && this.id == id
      ensures colaAtencion == [] && registroAtencion == []
    {
      this.nombre := nombre;
      this.direccion := direccion;
      this.id := id;
      colaAtencion := [];
      registroAtencion := [];
    }

    /** `agregar_mascota`: to the back of the queue. */
    method AgregarMascota(m: Mascota)
      modifies this
      ensures nombre == old(nombre) && direccion == old(direccion) && id == old(id)
      ensures colaAtencion == old(colaAtencion) + [m]
      ensures registroAtencion == old(registroAtencion)
    {
      colaAtencion := colaAtencion + [m];
    }

    /** `agregar_mascota_urgente`: to the front of the queue. */
    method AgregarMascotaUrgente(m: Mascota)
      modifies this
      ensures nombre == old(nombre) && direccion == old(direccion) && id == old(id)
      ensures colaAtencion == [m] + old(colaAtencion)
      ensures registroAtencion == old(registroAtencion)
    {
      colaAtencion := [m] + colaAtencion;
    }

    /** `atender`: takes the pet at the front; None and no change on an empty queue. */
    method Atender() returns (r: Option<Mascota>)
      modifies this
      ensures nombre == old(nombre) && direccion == old(direccion) && id == old(id)
      ensures old(colaAtencion) == [] ==> r.None? && colaAtencion == []
      ensures old(colaAtencion) != [] ==> r == Some(old(colaAtencion)[0]) && colaAtencion == old(colaAtencion)[1..]
      ensures registroAtencion == old(registroAtencion)
    {
      if |colaAtencion| == 0 {
        r := None;
      } else {
        r := Some(colaAtencion[0]);
        colaAtencion := colaAtencion[1..];
      }
    }

    /** `eliminar_mascota`: drops the first queued entry for the same pet. */
    method EliminarMascota(m: Mascota) returns (ok: bool)
      modifies this
      ensures nombre == old(nombre) && direccion == old(direccion) && id == old(id)
      ensures ok <==> PosicionMascota(old(colaAtencion), m).Some?
      ensures colaAtencion == SinMascota(old(colaAtencion), m)
      ensures registroAtencion == old(registroAtencion)
    {
      var i := 0;
      while i < |colaAtencion|
        invariant 0 <= i <= |colaAtencion|
        invariant colaAtencion == old(colaAtencion) && registroAtencion == old(registroAtencion)
        invariant forall j :: 0 <= j < i ==> !MismaMascota(colaAtencion[j], m)
      {
        if MismaMascota(colaAtencion[i], m) {
          assert PosicionMascota(colaAtencion, m) == Some(i);
          colaAtencion := Seqs.RemoveAt(colaAtencion, i);
          return true;
        }
        i := i + 1;
      }
      return false;
    }

    /** `registrar_atencion`: appends the record. */
    method RegistrarAtencion(atencion: RegistroAtencion)
      modifies this
      ensures nombre == old(nombre) && direccion == old(direccion) && id == old(id)
      ensures registroAtencion == old(registroAtencion) + [atencion]
      ensures colaAtencion == old(colaAtencion)
    {
      registroAtencion := registroAtencion + [atencion];
    }

    /** `buscar_registro_atencion`, by an index loop that stops at the first match. */
    method BuscarRegistroAtencion(nombreMascota: string, nombreDuenio: string, telefono: string) returns (r: Option<RegistroAtencion>)
      ensures r == BuscarRegistro(registroAtencion, nombreMascota, nombreDuenio, telefono)
    {
      var i := 0;
      while i < |registroAtencion|
        invariant 0 <= i <= |registroAtencion|
        invariant forall j :: 0 <= j < i ==> !CoincideRegistro(registroAtencion[j], nombreMascota, nombreDuenio, telefono)
      {
        if CoincideRegistro(registroAtencion[i], nombreMascota, nombreDuenio, telefono) {
          assert Seqs.FindIndex(registroAtencion, x => CoincideRegistro(x, nombreMascota, nombreDuenio, telefono)) == Some(i) by {
            var k := Seqs.FindIndex(registroAtencion, x => CoincideRegistro(x, nombreMascota, nombreDuenio, telefono));
            assert k.Some?;
            assert !(k.value < i) && !(i < k.value);
          }
          return Some(registroAtencion[i]);
        }
        i := i + 1;
      }
      return None;
    }

    /** `modificar_diagnostico`: overwrites the first record matching `original` and returns the new one. */
    method ModificarDiagnostico(original: RegistroAtencion, modificado: RegistroAtencion) returns (r: Option<RegistroAtencion>)
      modifies this
      ensures nombre == old(nombre) && direccion == old(direccion) && id == old(id)
      ensures r.None? <==> PosicionAtencion(old(registroAtencion), original).None?
      ensures r.Some? ==> r.value == modificado
      ensures registroAtencion == ConDiagnostico(old(registroAtencion), original, modificado)
      ensures colaAtencion == old(colaAtencion)
    {
      var i := 0;
      while i < |registroAtencion|
        invariant 0 <= i <= |registroAtencion|
        invariant registroAtencion == old(registroAtencion) && colaAtencion == old(colaAtencion)
        invariant forall j :: 0 <= j < i ==> !MismaAtencion(registroAtencion[j], original)
      {
        if MismaAtencion(registroAtencion[i], original) {
          assert PosicionAtencion(registroAtencion, original) == Some(i);
          registroAtencion := registroAtencion[i := modificado];
          return Some(registroAtencion[i]);
        }
        i := i + 1;
      }
      return None;
    }

    /** `modificar_fecha_atencion`: sets the next date of the first match and returns that record. */
    method ModificarFechaAtencion(ra: RegistroAtencion, f: Fecha) returns (r: Option<RegistroAtencion>)
      modifies this
      ensures nombre == old(nombre) && direccion == old(direccion) && id == old(id)
      ensures r.None? <==> PosicionAtencion(old(registroAtencion), ra).None?
      ensures r.Some? ==> r.value == old(registroAtencion)[PosicionAtencion(old(registroAtencion), ra).value].(proximaFecha := Some(f))
      ensures registroAtencion == ConProximaFecha(old(registroAtencion), ra, f)
      ensures colaAtencion == old(colaAtencion)
    {
      var i := 0;
      while i < |registroAtencion|
        invariant 0 <= i <= |registroAtencion|
        invariant registroAtencion == old(registroAtencion) && colaAtencion == old(colaAtencion)
        invariant forall j :: 0 <= j < i ==> !MismaAtencion(registroAtencion[j], ra)
      {
        if MismaAtencion(registroAtencion[i], ra) {
          assert PosicionAtencion(registroAtencion, ra) == Some(i);
          registroAtencion := registroAtencion[i := registroAtencion[i].(proximaFecha := Some(f))];
          return Some(registroAtencion[i]);
        }
        i := i + 1;
      }
      return None;
    }

    /** `eliminar_atencion`: removes the first match, keeping the order of the rest. */
    method EliminarAtencion(ra: RegistroAtencion) returns (ok: bool)
      modifies this
      ensures nombre == old(nombre) && direccion == old(direccion) && id == old(id)
      ensures ok <==> PosicionAtencion(old(registroAtencion), ra).Some?
      ensures registroAtencion == SinAtencion(old(registroAtencion), ra)
      ensures colaAtencion == old(colaAtencion)
    {
      var i := 0;
      while i < |registroAtencion|
        invariant 0 <= i <= |registroAtencion|
        invariant registroAtencion == old(registroAtencion) && colaAtencion == old(colaAtencion)
        invariant forall j :: 0 <= j < i ==> !MismaAtencion(registroAtencion[j], ra)
      {
        if MismaAtencion(registroAtencion[i], ra) {
          assert PosicionAtencion(registroAtencion, ra) == Some(i);
          registroAtencion := Seqs.RemoveAt(registroAtencion, i);
          return true;
        }
        i := i + 1;
      }
      return false;
    }
  }
}
