/**
 * The clinic draft of src/tp03/ej09.rs, which keeps everything in memory.
 * Its pets, clients, records and matching rules are those of
 * src/tp05/ej03.rs (module `Veterinarias`), and the functions there specify
 * this class as well; the one behavioural difference is that a new record
 * never carries a next visit date.
 */
module VeterinariaBorrador {
  import opened Wrappers
  import opened Fechas
  import opened Veterinarias
  import Format
  import Seqs

  /** `RegistroAtencion::new`: the pet, diagnosis, treatment and date given, and no next date. */
  function NuevoRegistro(mascota: Mascota, diagnostico: string, tratamiento: string, fecha: Fecha): (r: RegistroAtencion)
    ensures r.proximaFecha.None?
    ensures r.mascota == mascota && r.fecha == fecha
    ensures r.diagnostico == diagnostico && r.tratamiento == tratamiento
  {
    RegistroAtencion(mascota, diagnostico, tratamiento, fecha, None)
  }

  /** A new record's summary reports day 0 for the next visit. */
  lemma NuevoRegistroSinProximoDia(mascota: Mascota, diagnostico: string, tratamiento: string, fecha: Fecha)
    ensures var r := NuevoRegistro(mascota, diagnostico, tratamiento, fecha);
      Format.ParseNat(GetInfo(r)[|EncabezadoInfo(r)|..]) == 0
  {
    GetInfoDia(NuevoRegistro(mascota, diagnostico, tratamiento, fecha));
  }

  class Veterinaria {
    var nombre: string
    var direccion: string
    var id: nat
    var colaAtencion: seq<Mascota>
    var registroAtencion: seq<RegistroAtencion>

    /** `Veterinaria::new`: an empty queue and no records. */
    constructor (nombre: string, direccion: string, id: nat)
      ensures this.nombre == nombre && this.direccion == direccion && this.id == id
      ensures colaAtencion == [] && registroAtencion == []
    {
      this.nombre := nombre;
      this.direccion := direccion;
      this.id := id;
      colaAtencion := [];
      registroAtencion := [];
    }

    /** `agregar_mascota`: to the back of the queue. */
    method AgregarMascota(m: Mascota)
      modifies this
      ensures nombre == old(nombre) && direccion == old(direccion) && id == old(id)
      ensures colaAtencion == old(colaAtencion) + [m]
      ensures registroAtencion == old(registroAtencion)
    {
      colaAtencion := colaAtencion + [m];
    }

    /** `agregar_mascota_urgente`: to the front of the queue. */
    method AgregarMascotaUrgente(m: Mascota)
      modifies this
      ensures nombre == old(nombre) && direccion == old(direccion) && id == old(id)
      ensures colaAtencion == [m] + old(colaAtencion)
      ensures registroAtencion == old(registroAtencion)
    {
      colaAtencion := [m] + colaAtencion;
    }

    /** `atender`: takes the pet at the front; None and no change on an empty queue. */
    method Atender() returns (r: Option<Mascota>)
      modifies this
      ensures nombre == old(nombre) && direccion == old(direccion) && id == old(id)
      ensures old(colaAtencion) == [] ==> r.None? && colaAtencion == []
      ensures old(colaAtencion) != [] ==> r == Some(old(colaAtencion)[0]) && colaAtencion == old(colaAtencion)[1..]
      ensures registroAtencion == old(registroAtencion)
    {
      if |colaAtencion| == 0 {
        r := None;
      } else {
        r := Some(colaAtencion[0]);
        colaAtencion := colaAtencion[1..];
      }
    }

    /** `eliminar_mascota`: drops the first queued entry for the same pet. */
    method EliminarMascota(m: Mascota) returns (ok: bool)
      modifies this
      ensures nombre == old(nombre) && direccion == old(direccion) && id == old(id)
      ensures ok <==> PosicionMascota(old(colaAtencion), m).Some?
      ensures colaAtencion == SinMascota(old(colaAtencion), m)
      ensures registroAtencion == old(registroAtencion)
    {
      var i := 0;
      while i < |colaAtencion|
        invariant 0 <= i <= |colaAtencion|
        invariant colaAtencion == old(colaAtencion) && registroAtencion == old(registroAtencion)
        invariant forall j :: 0 <= j < i ==> !MismaMascota(colaAtencion[j], m)
      {
        if MismaMascota(colaAtencion[i], m) {
          assert PosicionMascota(colaAtencion, m) == Some(i);
          colaAtencion := Seqs.RemoveAt(colaAtencion, i);
          return true;
        }
        i := i + 1;
      }
      return false;
    }

    /** `registrar_atencion`: appends the record. */
    method RegistrarAtencion(atencion: RegistroAtencion)
      modifies this
      ensures nombre == old(nombre) && direccion == old(direccion) && id == old(id)
      ensures registroAtencion == old(registroAtencion) + [atencion]
      ensures colaAtencion == old(colaAtencion)
    {
      registroAtencion := registroAtencion + [atencion];
    }

    /** `buscar_registro_atencion`, by an index loop that stops at the first match. */
    method BuscarRegistroAtencion(nombreMascota: string, nombreDuenio: string, telefono: string) returns (r: Option<RegistroAtencion>)
      ensures r == BuscarRegistro(registroAtencion, nombreMascota, nombreDuenio, telefono)
    {
      var i := 0;
      while i < |registroAtencion|
        invariant 0 <= i <= |registroAtencion|
        invariant forall j :: 0 <= j < i ==> !CoincideRegistro(registroAtencion[j], nombreMascota, nombreDuenio, telefono)
      {
        if CoincideRegistro(registroAtencion[i], nombreMascota, nombreDuenio, telefono) {
          assert Seqs.FindIndex(registroAtencion, x => CoincideRegistro(x, nombreMascota, nombreDuenio, telefono)) == Some(i) by {
            var k := Seqs.FindIndex(registroAtencion, x => CoincideRegistro(x, nombreMascota, nombreDuenio, telefono));
            assert k.Some?;
            assert !(k.value < i) && !(i < k.value);
          }
          return Some(registroAtencion[i]);
        }
        i := i + 1;
      }
      return None;
    }

    /** `modificar_diagnostico`: overwrites the first record matching `original` and returns the new one. */
    method ModificarDiagnostico(original: RegistroAtencion, modificado: RegistroAtencion) returns (r: Option<RegistroAtencion>)
      modifies this
      ensures nombre == old(nombre) && direccion == old(direccion) && id == old(id)
      ensures r.None? <==> PosicionAtencion(old(registroAtencion), original).None?
      ensures r.Some? ==> r.value == modificado
      ensures registroAtencion == ConDiagnostico(old(registroAtencion), original, modificado)
      ensures colaAtencion == old(colaAtencion)
    {
      var i := 0;
      while i < |registroAtencion|
        invariant 0 <= i <= |registroAtencion|
        invariant registroAtencion == old(registroAtencion) && colaAtencion == old(colaAtencion)
        invariant forall j :: 0 <= j < i ==> !MismaAtencion(registroAtencion[j], original)
      {
        if MismaAtencion(registroAtencion[i], original) {
          assert PosicionAtencion(registroAtencion, original) == Some(i);
          registroAtencion := registroAtencion[i := modificado];
          return Some(registroAtencion[i]);
        }
        i := i + 1;
      }
      return None;
    }

    /** `modificar_fecha_atencion`: sets the next date of the first match and returns that record. */
    method ModificarFechaAtencion(ra: RegistroAtencion, f: Fecha) returns (r: Option<RegistroAtencion>)
      modifies this
      ensures nombre == old(nombre) && direccion == old(direccion) && id == old(id)
      ensures r.None? <==> PosicionAtencion(old(registroAtencion), ra).None?
      ensures r.Some? ==> r.value == old(registroAtencion)[PosicionAtencion(old(registroAtencion), ra).value].(proximaFecha := Some(f))
      ensures registroAtencion == ConProximaFecha(old(registroAtencion), ra, f)
      ensures colaAtencion == old(colaAtencion)
    {
      var i := 0;
      while i < |registroAtencion|
        invariant 0 <= i <= |registroAtencion|
        invariant registroAtencion == old(registroAtencion) && colaAtencion == old(colaAtencion)
        invariant forall j :: 0 <= j < i ==> !MismaAtencion(registroAtencion[j], ra)
      {
        if MismaAtencion(registroAtencion[i], ra) {
          assert PosicionAtencion(registroAtencion, ra) == Some(i);
          registroAtencion := registroAtencion[i := registroAtencion[i].(proximaFecha := Some(f))];
          return Some(registroAtencion[i]);
        }
        i := i + 1;
      }
      return None;
    }

    /** `eliminar_atencion`: removes the first match, keeping the order of the rest. */
    method EliminarAtencion(ra: RegistroAtencion) returns (ok: bool)
      modifies this
      ensures nombre == old(nombre) && direccion == old(direccion) && id == old(id)
      ensures ok <==> PosicionAtencion(old(registroAtencion), ra).Some?
      ensures registroAtencion == SinAtencion(old(registroAtencion), ra)
      ensures colaAtencion == old(colaAtencion)
    {
      var i := 0;
      while i < |registroAtencion|
        invariant 0 <= i <= |registroAtencion|
        invariant registroAtencion == old(registroAtencion) && colaAtencion == old(colaAtencion)
        invariant forall j :: 0 <= j < i ==> !MismaAtencion(registroAtencion[j], ra)
      {
        if MismaAtencion(registroAtencion[i], ra) {
          assert PosicionAtencion(registroAtencion, ra) == Some(i);
          registroAtencion := Seqs.RemoveAt(registroAtencion, i);
          return true;
        }
        i := i + 1;
      }
      return false;
    }
  }
}
