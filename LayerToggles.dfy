/** The map-layer panel: a fixed list of layers and a dictionary of which are on. */
module LayerToggles {

  datatype Layer = Layer(id: string, name: string)

  /** The five layers, in display order. */
  const Layers: seq<Layer> := [
    Layer("temperature", "Temperature"),
    Layer("rainfall", "Rainfall"),
    Layer("humidity", "Humidity"),
    Layer("vegetation", "Vegetation Index"),
    Layer("population", "Population Density")
  ]

  /** The layer ids are pairwise distinct, so each checkbox has its own entry. */
  lemma LayerIdsDistinct()
    ensures |Layers| == 5
    ensures forall i, j :: 0 <= i < j < |Layers| ==> Layers[i].id != Layers[j].id
  {
    var lengths := [11, 8, 8, 10, 10];
    forall i | 0 <= i < 5 ensures |Layers[i].id| == lengths[i] {
    }
    assert Layers[3].id[0] == 'v' && Layers[4].id[0] == 'p';
    assert Layers[1].id[0] == 'r' && Layers[2].id[0] == 'h';
  }

  /** The dictionary the panel starts from: temperature on, rainfall explicitly off. */
  const InitialLayers: map<string, bool> := map["temperature" := true, "rainfall" := false]

  /** `activeLayers[id] || false`: a missing entry reads as off. */
  predicate IsOn(active: map<string, bool>, id: string): (on: bool)
    ensures id !in active ==> !on
    ensures id in active ==> on == active[id]
  {
    id in active && active[id]
  }

  /** `{ ...prev, [id]: !prev[id] }`: the entry for `id` becomes the negation of its
      effective value; every other entry stays as it was. */
  function Toggled(active: map<string, bool>, id: string): (r: map<string, bool>)
    ensures id in r && (IsOn(r, id) <==> !IsOn(active, id))
    ensures r.Keys == active.Keys + {id}
    ensures forall k :: k in active && k != id ==> r[k] == active[k]
  {
    active[id := !IsOn(active, id)]
  }

  /** At the start only temperature reads as on. */
  lemma InitialLayersState()
    ensures forall l :: l in Layers ==> (IsOn(InitialLayers, l.id) <==> l.id == "temperature")
    ensures InitialLayers.Keys == {"temperature", "rainfall"}
  {
    forall l | l in Layers ensures IsOn(InitialLayers, l.id) <==> l.id == "temperature" {
      if l.id != "temperature" {
        assert l.id !in InitialLayers || !InitialLayers[l.id];
      }
    }
  }

  /** Toggling a layer twice restores what it reads as; a missing entry is left behind as
      an explicit `false`, and every other entry is as before. */
  lemma ToggleTwice(active: map<string, bool>, id: string)
    ensures IsOn(Toggled(Toggled(active, id), id), id) == IsOn(active, id)
    ensures Toggled(Toggled(active, id), id) == active[id := IsOn(active, id)]
    ensures id !in active ==> Toggled(Toggled(active, id), id)[id] == false
  {
  }

  /** Toggling two different layers gives the same dictionary in either order. */
  lemma TogglesCommute(active: map<string, bool>, a: string, b: string)
    requires a != b
    ensures Toggled(Toggled(active, a), b) == Toggled(Toggled(active, b), a)
  {
    assert IsOn(Toggled(active, a), b) == IsOn(active, b);
    assert IsOn(Toggled(active, b), a) == IsOn(active, a);
  }

  class LayerState {
    var activeLayers: map<string, bool>

    constructor()
      ensures activeLayers == InitialLayers
    {
      activeLayers := InitialLayers;
    }

    /** `handleLayerChange(id)` */
    method HandleLayerChange(id: string)
      modifies this
      ensures activeLayers == Toggled(old(activeLayers), id)
      ensures Checked(id) <==> !old(Checked(id))
    {
      activeLayers := activeLayers[id := !IsOn(activeLayers, id)];
    }

    /** The value a layer's checkbox shows. */
    predicate Checked(id: string): (c: bool)
      reads this
      ensures c == IsOn(activeLayers, id)
      ensures c ==> id in activeLayers && activeLayers[id]
    {
      IsOn(activeLayers, id)
    }
  }
}
