/** The Builder pattern demo: a Car product, the Skylark builder that assembles
    it in place, and a Director that runs the builder's steps in a fixed order.

    The abstract base builder only sets `car` to None and creates a new Car;
    both are inherited unchanged by the one concrete builder, so they are
    members of `SkylarkBuilder` here. Each mutating method is proved against
    the step functions of `BuilderSpec`.
 */
module Builder {
  import opened BuilderSpec

  /** The product: three nullable text fields. */
  class Car {
    var model: Option<string>
    var tires: Option<string>
    var engine: Option<string>

    constructor ()
      ensures Parts() == Unset
    {
      model, tires, engine := None, None, None;
    }

    /** The car's fields as a value. */
    function Parts(): (p: CarParts)
      reads this
    {
      CarParts(model, tires, engine)
    }

    /** `str(car)`: the three fields in the order model, tires, engine,
        separated by " | ", with an unset field shown as "None". */
    function ToString(): (s: string)
      reads this
      ensures Parts() == Skylark ==> s == "Skylark | Regular tires | Turbo Engine"
      ensures Parts() == Unset ==> s == "None | None | None"
      ensures '|' !in Str(model) + Str(tires) + Str(engine) ==>
                SplitOn(s) == [Str(model), Str(tires), Str(engine)]
    {
      FieldsRoundTrip(Str(model), Str(tires), Str(engine));
      SkylarkRendering();
      UnsetRendering();
      Str(model) + Separator + Str(tires) + Separator + Str(engine)
    }
  }

  /** The concrete builder, holding the car under construction (or null). */
  class SkylarkBuilder {
    var car: Car?

    /** The builder's car slot as a value. */
    ghost function State(): Option<CarParts>
      reads this, car
    {
      if car == null then None else Some(car.Parts())
    }

    /** A new builder has no car. */
    constructor ()
      ensures car == null && State() == None
    {
      car := null;
    }

    /** Replaces the current car, if any, by a freshly allocated empty one;
        the previous car object itself is left untouched. */
    method CreateNewCar()
      modifies this
      ensures fresh(car) && car.Parts() == Unset
      ensures Apply(old(State()), CreateStep) == Ok(State())
    {
      car := new Car();
    }

    /** Sets the current car's model; tires, engine and the car reference stay. */
    method AddModel()
      requires car != null
      modifies car`model
      ensures car == old(car)
      ensures car.Parts() == old(car.Parts()).(model := Some(SkylarkModel))
      ensures Apply(old(State()), ModelStep) == Ok(State())
    {
      car.model := Some(SkylarkModel);
    }

    /** Sets the current car's tires; model, engine and the car reference stay. */
    method AddTires()
      requires car != null
      modifies car`tires
      ensures car == old(car)
      ensures car.Parts() == old(car.Parts()).(tires := Some(SkylarkTires))
      ensures Apply(old(State()), TiresStep) == Ok(State())
    {
      car.tires := Some(SkylarkTires);
    }

    /** Sets the current car's engine; model, tires and the car reference stay. */
    method AddEngine()
      requires car != null
      modifies car`engine
      ensures car == old(car)
      ensures car.Parts() == old(car.Parts()).(engine := Some(SkylarkEngine))
      ensures Apply(old(State()), EngineStep) == Ok(State())
    {
      car.engine := Some(SkylarkEngine);
    }
  }

  /** Runs the builder's steps in a fixed order; its builder is fixed at construction. */
  class Director {
    const builder: SkylarkBuilder

    constructor (builder: SkylarkBuilder)
      ensures this.builder == builder
    {
      this.builder := builder;
    }

    /** create_new_car, add_model, add_tires, add_engine, in that order. */
    method ConstructCar()
      modifies builder
      ensures fresh(builder.car) && builder.car.Parts() == Skylark
      ensures Run(old(builder.State()), DirectorSteps) == Ok(builder.State())
      ensures old(builder.car) != null ==> unchanged(old(builder.car))
    {
      builder.CreateNewCar();
      builder.AddModel();
      builder.AddTires();
      builder.AddEngine();
    }

    /** The builder's current car, or null if it never created one; changes nothing. */
    method GetCar() returns (car: Car?)
      ensures car == builder.car
    {
      car := builder.car;
    }
  }

  /** A director over a builder that was never used hands back no car, without failing. */
  method UnusedDirectorHasNoCar() returns (car: Car?)
    ensures car == null
  {
    var builder := new SkylarkBuilder();
    var director := new Director(builder);
    car := director.GetCar();
  }

  /** The whole demo flow: build a Skylark through a director and render it. */
  method BuildAndRender() returns (s: string)
    ensures s == "Skylark | Regular tires | Turbo Engine"
  {
    var builder := new SkylarkBuilder();
    var director := new Director(builder);
    director.ConstructCar();
    var car := director.GetCar();
    s := car.ToString();
  }

  /** Two constructions hand back two distinct cars with equal fields; the
      second does not disturb the first. */
  method ConstructTwice(director: Director) returns (first: Car, second: Car)
    modifies director.builder
    ensures first != second
    ensures first.Parts() == Skylark && second.Parts() == Skylark
  {
    director.ConstructCar();
    var c := director.GetCar();
    first := c;
    director.ConstructCar();
    c := director.GetCar();
    second := c;
  }

  /** Repeated get_car calls with no construction between them give the same reference. */
  method GetCarTwice(director: Director) returns (a: Car?, b: Car?)
    ensures a == b && a == director.builder.car
  {
    a := director.GetCar();
    b := director.GetCar();
  }
}
