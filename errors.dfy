/** The exceptions the modelled code of Main.kt raises and lets escape `main`.
    Exceptions from the libraries it calls, and from the file system, are outside
    the model. The fields of the `...Mistyped` cases (path key, parameter, point
    index, field name) locate the failure for a reader of the model; the exception
    the program throws there carries none of them. */
module Errors {

  datatype Error =
    /** `getPropertyOrExit`: the key is absent from trajectory.properties. */
    | MissingProperty(name: string)
    /** The global `fitMethod` is neither HERMITE_CUBIC nor HERMITE_QUINTIC. */
    | InvalidFitMethod(text: string)
    /** The global `samples` is no named density and no Int. */
    | InvalidSampleAmount(text: string)
    /** `String.toDouble()` threw NumberFormatException on a global numeric property. */
    | InvalidNumber(name: string, text: string)
    /** profiles.json does not hold a JSON object at top level (the `as JsonObject` cast). */
    | DocumentNotObject
    /** The item at a path key is JSON null ("is not a valid JSON object"). */
    | ItemNotObject(key: string)
    /** The item at a path key is neither null nor an object (ClassCastException from `obj`;
        `key` locates it for the model's reader and is not part of the exception). */
    | ItemMistyped(key: string)
    /** `paramError`: a mandatory parameter (`flip`, `points`) is absent or null. */
    | ParameterError(param: string, key: string)
    /** A parameter read by a typed accessor without a catch has the wrong JSON type
        (ClassCastException from Klaxon's cast; `param` and `key` are not part of it). */
    | ParameterMistyped(param: string, key: string)
    /** A point lacks one of `x`, `y`, `angle` ("point $i are missing or invalid"). */
    | PointInvalid(key: string, index: nat)
    /** A point, or one of its coordinates, has the wrong JSON type: a ClassCastException
        from the cast, or the exception `goodDouble` throws for a coordinate that is neither
        double, Int nor null. A JSON-null point is the null-receiver exception of the
        extension `goodDouble` on a null object, not a cast. `field` is empty when the point
        itself is no object; `key`, `index` and `field` locate the failure for the model's
        reader and are not part of the program's exception. */
    | PointMistyped(key: string, index: nat, field: string)
    /** The hash record has fewer lines than `main` indexes (IndexOutOfBoundsException). */
    | HashRecordTooShort(index: nat)
}
