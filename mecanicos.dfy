/** Mechanics as the service and voucher forms see them: an id and a name.
    Both forms fill the mechanic-name field from the first mechanic whose id
    was picked in the drop-down. */
module Mecanicos {
  import Lists

  datatype Mecanico = Mecanico(id: string, nome: string)

  function MecanicoId(m: Mecanico): string {
    m.id
  }

  /** `mecanicos.find(m => m.id === id)`, then its name, or "" when none matches. */
  function NomeDoMecanico(mecanicos: seq<Mecanico>, id: string): (nome: string)
    ensures !Lists.HasKey(mecanicos, MecanicoId, id) ==> nome == ""
    ensures Lists.HasKey(mecanicos, MecanicoId, id) ==>
      exists i :: 0 <= i < |mecanicos| && mecanicos[i].id == id && nome == mecanicos[i].nome
        && forall j :: 0 <= j < i ==> mecanicos[j].id != id
  {
    var i := Lists.FindIndex(mecanicos, MecanicoId, id);
    if i >= 0 then mecanicos[i].nome else ""
  }

  /** With distinct ids the name found is the name of the one mechanic holding the id. */
  lemma NomeDoMecanicoUnique(mecanicos: seq<Mecanico>, i: nat)
    requires Lists.DistinctKeys(mecanicos, MecanicoId) && i < |mecanicos|
    ensures NomeDoMecanico(mecanicos, mecanicos[i].id) == mecanicos[i].nome
  {
    assert MecanicoId(mecanicos[i]) == mecanicos[i].id;
  }
}
